/** The command queue pallet, `pallets/swarm-robot-pallet/src/lib.rs`, with the types of the
    runtime configuration and a generic queue capacity: a registry of robots, one bounded FIFO
    queue in storage, and the log of deposited events. */
module Pallet {

  type U32 = n: nat | n < 0x1_0000_0000

  datatype Coordinate = Coordinate(x: U32, y: U32)

  type RobotId = U32

  datatype Option<+T> = None | Some(value: T)

  datatype Command = GoToLocation(location: Coordinate) | PerformTask(task: U32) | Halt | WaitForCommand

  datatype Event =
    | CommandEnqueued(command: Command)
    | CommandPulled(robotId: RobotId, command: Command, coordinate: Option<Coordinate>)

  datatype Error = BadOrigin | InvalidRobotId | QueueFull | QueueEmpty

  datatype DispatchResult = Ok | Err(error: Error)

  datatype Origin = Signed(who: nat) | Unsigned

  datatype Call =
    | RegisterRobot(origin: Origin, id: RobotId)
    | EnqueueCommand(origin: Origin, command: Command)
    | PullNext(origin: Origin, id: RobotId)

  datatype Chain = Chain(registered: set<RobotId>, queue: seq<Command>, events: seq<Event>)

  const GENESIS: Chain := Chain({}, [], [])

  datatype Outcome = Outcome(chain: Chain, result: DispatchResult)

  // ---------- The three calls ----------

  function Register(s: Chain, origin: Origin, id: RobotId): Outcome {
    if origin.Unsigned? then Outcome(s, Err(BadOrigin))
    else Outcome(s.(registered := s.registered + {id}), Ok)
  }

  function Enqueue(cap: nat, s: Chain, origin: Origin, command: Command): Outcome {
    if origin.Unsigned? then Outcome(s, Err(BadOrigin))
    else if |s.queue| >= cap then Outcome(s, Err(QueueFull))
    else Outcome(s.(queue := s.queue + [command], events := s.events + [CommandEnqueued(command)]), Ok)
  }

  function CoordinateOf(command: Command): Option<Coordinate> {
    match command
    case GoToLocation(c) => Some(c)
    case _ => None
  }

  function Pull(s: Chain, origin: Origin, id: RobotId): Outcome {
    if origin.Unsigned? then Outcome(s, Err(BadOrigin))
    else if id !in s.registered then Outcome(s, Err(InvalidRobotId))
    else if s.queue == [] then Outcome(s, Err(QueueEmpty))
    else
      var command := s.queue[0];
      Outcome(s.(queue := s.queue[1..],
                 events := s.events + [CommandPulled(id, command, CoordinateOf(command))]), Ok)
  }

  function Exec(cap: nat, s: Chain, call: Call): Outcome {
    match call
    case RegisterRobot(origin, id) => Register(s, origin, id)
    case EnqueueCommand(origin, command) => Enqueue(cap, s, origin, command)
    case PullNext(origin, id) => Pull(s, origin, id)
  }

  function Run(cap: nat, s: Chain, calls: seq<Call>): Chain {
    if calls == [] then s
    else Exec(cap, Run(cap, s, calls[..|calls| - 1]), calls[|calls| - 1]).chain
  }

  /** The result of every call of a run, in order. */
  function Results(cap: nat, s: Chain, calls: seq<Call>): seq<DispatchResult> {
    if calls == [] then []
    else Results(cap, s, calls[..|calls| - 1])
         + [Exec(cap, Run(cap, s, calls[..|calls| - 1]), calls[|calls| - 1]).result]
  }

  // ---------- The pallet as an object with storage ----------

  class Storage {
    const capacity: nat
    var registeredRobots: set<RobotId>
    var globalCommandQueue: seq<Command>
    var events: seq<Event>

    function State(): Chain
      reads this
    {
      Chain(registeredRobots, globalCommandQueue, events)
    }

    constructor (capacity: nat)
      ensures this.capacity == capacity && State() == GENESIS
    {
      this.capacity := capacity;
      registeredRobots, globalCommandQueue, events := {}, [], [];
    }

    /** `BoundedVec::try_push`. */
    method TryPush(queue: seq<Command>, command: Command) returns (ok: bool, longer: seq<Command>)
      ensures ok == (|queue| < capacity)
      ensures longer == if ok then queue + [command] else queue
    {
      ok := |queue| < capacity;
      longer := if ok then queue + [command] else queue;
    }

    method RegisterRobot(origin: Origin, id: RobotId) returns (result: DispatchResult)
      modifies this
      ensures Outcome(State(), result) == Register(old(State()), origin, id)
    {
      if origin.Unsigned? {
        return Err(BadOrigin);
      }
      registeredRobots := registeredRobots + {id};
      result := Ok;
    }

    method EnqueueCommand(origin: Origin, command: Command) returns (result: DispatchResult)
      modifies this
      ensures Outcome(State(), result) == Enqueue(capacity, old(State()), origin, command)
    {
      if origin.Unsigned? {
        return Err(BadOrigin);
      }
      var queue := globalCommandQueue;
      var pushed;
      pushed, queue := TryPush(queue, command);
      if !pushed {
        return Err(QueueFull);
      }
      globalCommandQueue := queue;
      events := events + [CommandEnqueued(command)];
      result := Ok;
    }

    method PullNext(origin: Origin, id: RobotId) returns (result: DispatchResult)
      modifies this
      ensures Outcome(State(), result) == Pull(old(State()), origin, id)
    {
      if origin.Unsigned? {
        return Err(BadOrigin);
      }
      if id !in registeredRobots {
        return Err(InvalidRobotId);
      }
      var queue := globalCommandQueue;
      if |queue| == 0 {
        return Err(QueueEmpty);
      }
      var command := queue[0];
      queue := queue[1..];
      globalCommandQueue := queue;
      var coordinate := if command.GoToLocation? then Some(command.location) else None;
      events := events + [CommandPulled(id, command, coordinate)];
      result := Ok;
    }
  }

  // ---------- Errors ----------

  /** Which error a call returns, for every state: the origin is checked first, then the
      registration, then the queue. */
  lemma ErrorsExact(cap: nat, s: Chain, call: Call)
    ensures var result := Exec(cap, s, call).result;
            && (result == Err(BadOrigin) <==> call.origin.Unsigned?)
            && (result == Err(QueueFull) <==> call.EnqueueCommand? && call.origin.Signed? && |s.queue| >= cap)
            && (result == Err(InvalidRobotId)
                <==> call.PullNext? && call.origin.Signed? && call.id !in s.registered)
            && (result == Err(QueueEmpty)
                <==> call.PullNext? && call.origin.Signed? && call.id in s.registered && |s.queue| == 0)
            && (result.Err? ==> Exec(cap, s, call).chain == s)
  {
    match call
    case RegisterRobot(_, _) =>
    case EnqueueCommand(_, _) =>
    case PullNext(_, _) =>
  }

  // ---------- Conservation ----------

  function Enqueued(events: seq<Event>): seq<Command> {
    if events == [] then []
    else
      Enqueued(events[..|events| - 1])
      + (match events[|events| - 1] case CommandEnqueued(c) => [c] case CommandPulled(_, _, _) => [])
  }

  function Pulled(events: seq<Event>): seq<Command> {
    if events == [] then []
    else
      Pulled(events[..|events| - 1])
      + (match events[|events| - 1] case CommandEnqueued(_) => [] case CommandPulled(_, c, _) => [c])
  }

  /** What every state keeps: the queue is what was enqueued and not yet pulled, in order, and
      fits the capacity. */
  ghost predicate Conserved(cap: nat, s: Chain) {
    Pulled(s.events) + s.queue == Enqueued(s.events) && |s.queue| <= cap
  }

  lemma HistoryGrows(events: seq<Event>, e: Event)
    ensures Enqueued(events + [e]) == Enqueued(events) + (if e.CommandEnqueued? then [e.command] else [])
    ensures Pulled(events + [e]) == Pulled(events) + (if e.CommandPulled? then [e.command] else [])
  {
    assert (events + [e])[..|events|] == events;
  }

  /** An event and the change of the queue that goes with it. */
  lemma EventConserves(events: seq<Event>, queue: seq<Command>, e: Event, rest: seq<Command>)
    requires Pulled(events) + queue == Enqueued(events)
    requires if e.CommandEnqueued? then rest == queue + [e.command] else queue == [e.command] + rest
    ensures Pulled(events + [e]) + rest == Enqueued(events + [e])
  {
    HistoryGrows(events, e);
    if e.CommandPulled? {
      assert (Pulled(events) + [e.command]) + rest == Pulled(events) + queue;
    }
  }

  lemma ExecConserves(cap: nat, s: Chain, call: Call)
    requires Conserved(cap, s)
    ensures Conserved(cap, Exec(cap, s, call).chain)
    ensures Exec(cap, s, call).result.Err? ==> Exec(cap, s, call).chain == s
  {
    var t := Exec(cap, s, call).chain;
    if t.events != s.events {
      EventConserves(s.events, s.queue, t.events[|s.events|], t.queue);
    }
  }

  /** For every sequence of calls from genesis, the pulled commands followed by the queue are the
      enqueued commands, whichever robots pulled and however many calls failed. */
  lemma {:induction false} FifoConservation(cap: nat, calls: seq<Call>)
    ensures Conserved(cap, Run(cap, GENESIS, calls))
  {
    if calls != [] {
      FifoConservation(cap, calls[..|calls| - 1]);
      ExecConserves(cap, Run(cap, GENESIS, calls[..|calls| - 1]), calls[|calls| - 1]);
    }
  }

  // ---------- Event soundness ----------

  predicate Registers(call: Call, id: RobotId) {
    call.RegisterRobot? && call.origin.Signed? && call.id == id
  }

  /** Registration is idempotent and never undone: the registry holds exactly the ids that some
      signed call registered. */
  lemma {:induction false} RegistryExact(cap: nat, calls: seq<Call>, id: RobotId)
    ensures id in Run(cap, GENESIS, calls).registered
       <==> exists j :: 0 <= j < |calls| && Registers(calls[j], id)
  {
    if calls != [] {
      var n := |calls| - 1;
      var front := calls[..n];
      RegistryExact(cap, front, id);
      if id in Run(cap, GENESIS, front).registered {
        var j :| 0 <= j < |front| && Registers(front[j], id);
        assert Registers(calls[j], id);
      } else if id in Run(cap, GENESIS, calls).registered {
        assert Registers(calls[n], id);
      }
    }
  }

  /** The n-th event is sound: a `CommandPulled` carries the command whose `CommandEnqueued` is
      the next one in order, deposited before it, and a coordinate exactly when that command was
      `GoToLocation`. */
  ghost predicate SoundEvent(events: seq<Event>, n: nat)
    requires n < |events|
  {
    events[n].CommandPulled? ==>
      && |Pulled(events[..n])| < |Enqueued(events[..n])|
      && events[n].command == Enqueued(events[..n])[|Pulled(events[..n])|]
      && (forall c :: events[n].coordinate == Some(c)
                 <==> Enqueued(events[..n])[|Pulled(events[..n])|] == GoToLocation(c))
  }

  /** Event n of the run was deposited by call t. */
  predicate Deposits(cap: nat, calls: seq<Call>, t: nat, n: nat) {
    && t < |calls|
    && |Run(cap, GENESIS, calls[..t]).events| == n
    && |Exec(cap, Run(cap, GENESIS, calls[..t]), calls[t]).chain.events| == n + 1
  }

  /** One of the first t calls registered the id. */
  predicate RegisteredBefore(calls: seq<Call>, t: nat, id: RobotId)
    requires t <= |calls|
  {
    exists j :: 0 <= j < t && Registers(calls[j], id)
  }

  /** Every event of a run is sound, some call deposited it, and a pull event names a robot that a
      call before that one registered. */
  lemma {:induction false} EventSoundness(cap: nat, calls: seq<Call>, n: nat) returns (t: nat)
    requires n < |Run(cap, GENESIS, calls).events|
    ensures var events := Run(cap, GENESIS, calls).events;
            && SoundEvent(events, n)
            && Deposits(cap, calls, t, n)
            && (events[n].CommandPulled? ==> RegisteredBefore(calls, t, events[n].robotId))
    decreases |calls|
  {
    var last := |calls| - 1;
    var front := calls[..last];
    var s, after := Run(cap, GENESIS, front), Run(cap, GENESIS, calls);
    FifoConservation(cap, front);
    if n < |s.events| {
      t := EventSoundness(cap, front, n);
      assert after.events[..n] == s.events[..n] && after.events[n] == s.events[n];
      assert front[..t] == calls[..t];
      if after.events[n].CommandPulled? {
        var j :| 0 <= j < t && Registers(front[j], after.events[n].robotId);
        assert Registers(calls[j], after.events[n].robotId);
      }
    } else {
      t := last;
      assert after.events[..n] == s.events;
      if after.events[n].CommandPulled? {
        assert Enqueued(s.events)[|Pulled(s.events)|] == s.queue[0];
        PullerRegistered(cap, calls, t);
      }
    }
  }

  /** Every successful pull is by a robot that an earlier call registered. */
  lemma PullerRegistered(cap: nat, calls: seq<Call>, t: nat)
    requires t < |calls| && calls[t].PullNext?
    requires Exec(cap, Run(cap, GENESIS, calls[..t]), calls[t]).result == Ok
    ensures RegisteredBefore(calls, t, calls[t].id)
  {
    RegistryExact(cap, calls[..t], calls[t].id);
    var j :| 0 <= j < t && Registers(calls[..t][j], calls[t].id);
    assert Registers(calls[j], calls[t].id);
  }

  // ---------- Refinement of an append-only log ----------

  /** The textbook queue: nothing is ever removed, `head` and the length of `log` only grow. */
  datatype Log = Log(registered: set<RobotId>, log: seq<Command>, head: nat)

  datatype LogOutcome = LogOutcome(log: Log, result: DispatchResult)

  function ExecLog(cap: nat, l: Log, call: Call): LogOutcome {
    if call.origin.Unsigned? then LogOutcome(l, Err(BadOrigin))
    else
      match call
      case RegisterRobot(_, id) => LogOutcome(l.(registered := l.registered + {id}), Ok)
      case EnqueueCommand(_, command) =>
        if |l.log| - l.head >= cap then LogOutcome(l, Err(QueueFull))
        else LogOutcome(l.(log := l.log + [command]), Ok)
      case PullNext(_, id) =>
        if id !in l.registered then LogOutcome(l, Err(InvalidRobotId))
        else if l.head == |l.log| then LogOutcome(l, Err(QueueEmpty))
        else LogOutcome(l.(head := l.head + 1), Ok)
  }

  function RunLog(cap: nat, l: Log, calls: seq<Call>): Log {
    if calls == [] then l
    else ExecLog(cap, RunLog(cap, l, calls[..|calls| - 1]), calls[|calls| - 1]).log
  }

  /** The stored vector is the part of the log between the counters, and the counters never drift
      further apart than the capacity. */
  ghost predicate Refines(cap: nat, s: Chain, l: Log) {
    && s.registered == l.registered
    && l.head <= |l.log| <= l.head + cap
    && s.queue == l.log[l.head..]
  }

  lemma ExecRefines(cap: nat, s: Chain, l: Log, call: Call)
    requires Refines(cap, s, l)
    ensures Refines(cap, Exec(cap, s, call).chain, ExecLog(cap, l, call).log)
    ensures Exec(cap, s, call).result == ExecLog(cap, l, call).result
    ensures l.head <= ExecLog(cap, l, call).log.head && l.log <= ExecLog(cap, l, call).log.log
  {
    assert |s.queue| == |l.log| - l.head;
  }

  lemma ExecLogsEvents(cap: nat, s: Chain, l: Log, call: Call)
    requires Refines(cap, s, l) && l.log == Enqueued(s.events) && l.head == |Pulled(s.events)|
    ensures var t, m := Exec(cap, s, call).chain, ExecLog(cap, l, call).log;
            m.log == Enqueued(t.events) && m.head == |Pulled(t.events)|
  {
    var t := Exec(cap, s, call).chain;
    ExecRefines(cap, s, l, call);
    if t.events != s.events {
      assert t.events[..|t.events| - 1] == s.events;
    }
  }

  /** Over every run from genesis the pallet answers like the log, and the log is the event
      history: what was enqueued, with the head counting what was pulled. */
  lemma {:induction false} RunRefines(cap: nat, calls: seq<Call>)
    ensures var s, l := Run(cap, GENESIS, calls), RunLog(cap, Log({}, [], 0), calls);
            && Refines(cap, s, l)
            && l.log == Enqueued(s.events)
            && l.head == |Pulled(s.events)|
            && (forall call :: Exec(cap, s, call).result == ExecLog(cap, l, call).result)
  {
    if calls != [] {
      var front := calls[..|calls| - 1];
      var s, l := Run(cap, GENESIS, front), RunLog(cap, Log({}, [], 0), front);
      RunRefines(cap, front);
      ExecRefines(cap, s, l, calls[|calls| - 1]);
      ExecLogsEvents(cap, s, l, calls[|calls| - 1]);
    }
    forall call ensures Exec(cap, Run(cap, GENESIS, calls), call).result
                     == ExecLog(cap, RunLog(cap, Log({}, [], 0), calls), call).result {
      ExecRefines(cap, Run(cap, GENESIS, calls), RunLog(cap, Log({}, [], 0), calls), call);
    }
  }

  predicate PullsBy(call: Call, registered: set<RobotId>) {
    call.PullNext? && call.origin.Signed? && call.id in registered
  }

  /** The state after m successful pulls of a queue with at least m commands. */
  ghost predicate Drained(s: Chain, t: Chain, m: nat)
    requires m <= |s.queue|
  {
    && t.registered == s.registered
    && t.queue == s.queue[m..]
    && Pulled(t.events) == Pulled(s.events) + s.queue[..m]
    && Enqueued(t.events) == Enqueued(s.events)
  }

  lemma DrainStep(cap: nat, s: Chain, u: Chain, m: nat, call: Call)
    requires m <= |s.queue| && Drained(s, u, m) && PullsBy(call, s.registered)
    ensures m < |s.queue| ==> Exec(cap, u, call).result == Ok && Drained(s, Exec(cap, u, call).chain, m + 1)
    ensures m == |s.queue| ==> Exec(cap, u, call) == Outcome(u, Err(QueueEmpty))
  {
    if m < |s.queue| {
      var t := Exec(cap, u, call).chain;
      assert u.queue[0] == s.queue[m];
      assert s.queue[..m + 1] == s.queue[..m] + [s.queue[m]];
      assert t.events[..|t.events| - 1] == u.events;
    }
  }

  /** Pulls by registered robots drain the queue front to back: the i-th succeeds exactly when
      i < m for m pending commands, and every later one fails with `QueueEmpty`. */
  lemma {:induction false} Drain(cap: nat, s: Chain, pulls: seq<Call>)
    requires forall i :: 0 <= i < |pulls| ==> PullsBy(pulls[i], s.registered)
    ensures Drained(s, Run(cap, s, pulls), if |pulls| < |s.queue| then |pulls| else |s.queue|)
    ensures |Results(cap, s, pulls)| == |pulls|
    ensures forall i :: 0 <= i < |pulls| ==>
              Results(cap, s, pulls)[i] == if i < |s.queue| then Ok else Err(QueueEmpty)
  {
    if pulls != [] {
      var n := |pulls| - 1;
      Drain(cap, s, pulls[..n]);
      DrainStep(cap, s, Run(cap, s, pulls[..n]), if n < |s.queue| then n else |s.queue|, pulls[n]);
    }
  }

  // ---------- Order independence ----------

  predicate SameStorage(s: Chain, t: Chain) {
    s.registered == t.registered && s.queue == t.queue
  }

  /** Both orders of two calls give each call the same result and end in the same storage. */
  predicate Commute(cap: nat, s: Chain, a: Call, b: Call) {
    var a1, b1 := Exec(cap, s, a), Exec(cap, s, b);
    var b2, a2 := Exec(cap, a1.chain, b), Exec(cap, b1.chain, a);
    SameStorage(b2.chain, a2.chain) && a1.result == a2.result && b1.result == b2.result
  }

  /** Both orders deposit the same events, possibly in another order. */
  predicate SameEvents(cap: nat, s: Chain, a: Call, b: Call) {
    multiset(Exec(cap, Exec(cap, s, a).chain, b).chain.events)
    == multiset(Exec(cap, Exec(cap, s, b).chain, a).chain.events)
  }

  /** Enqueue and pull commute exactly when the queue is neither empty nor full.  A capacity of
      zero is the one exception: then both fail either way. */
  lemma EnqueuePullCommute(cap: nat, s: Chain, a: Call, b: Call)
    requires |s.queue| <= cap
    requires a.EnqueueCommand? && a.origin.Signed?
    requires b.PullNext? && b.origin.Signed? && b.id in s.registered
    ensures Commute(cap, s, a, b) <==> 0 < |s.queue| < cap || cap == 0
    ensures Commute(cap, s, a, b) ==> SameEvents(cap, s, a, b)
  {
    if 0 < |s.queue| < cap {
      assert (s.queue + [a.command])[1..] == s.queue[1..] + [a.command];
    }
  }

  /** n enqueues of the same command by one signer. */
  function Enqueues(n: nat, command: Command): seq<Call> {
    seq(n, i => EnqueueCommand(Signed(0), command))
  }

  lemma {:induction false} FillQueue(cap: nat, s: Chain, n: nat, command: Command)
    requires |s.queue| + n <= cap
    ensures var t := Run(cap, s, Enqueues(n, command));
            t.registered == s.registered && |t.queue| == |s.queue| + n
  {
    if n > 0 {
      assert Enqueues(n, command)[..n - 1] == Enqueues(n - 1, command);
      FillQueue(cap, s, n - 1, command);
    }
  }

  /** Both failing sides are reached from genesis, for every positive capacity: right after a
      registration the queue is empty, and `cap` enqueues later it is full; an enqueue and a pull
      commute in neither state. */
  lemma EnqueuePullCanClash(cap: nat, id: RobotId, command: Command)
    requires cap > 0
    ensures var first := [RegisterRobot(Signed(0), id)];
            var empty, full := Run(cap, GENESIS, first), Run(cap, GENESIS, first + Enqueues(cap, command));
            var a, b := EnqueueCommand(Signed(0), command), PullNext(Signed(0), id);
            && empty.queue == [] && |full.queue| == cap
            && !Commute(cap, empty, a, b) && !Commute(cap, full, a, b)
  {
    var first := [RegisterRobot(Signed(0), id)];
    var a, b := EnqueueCommand(Signed(0), command), PullNext(Signed(0), id);
    RunOne(cap, GENESIS, first[0]);
    var empty := Run(cap, GENESIS, first);
    RunConcat(cap, GENESIS, first, Enqueues(cap, command));
    FillQueue(cap, empty, cap, command);
    EnqueuePullCommute(cap, empty, a, b);
    EnqueuePullCommute(cap, Run(cap, empty, Enqueues(cap, command)), a, b);
  }

  /** A registration commutes with every call except a pull by the same id when that id is not
      yet registered; where it commutes, even the event log is the same. */
  lemma RegisterCommutes(cap: nat, s: Chain, a: Call, b: Call)
    requires a.RegisterRobot?
    ensures Commute(cap, s, a, b)
       <==> !(a.origin.Signed? && b.PullNext? && b.origin.Signed? && b.id == a.id && a.id !in s.registered)
    ensures Commute(cap, s, a, b) ==>
              Exec(cap, Exec(cap, s, a).chain, b).chain == Exec(cap, Exec(cap, s, b).chain, a).chain
  {
    if b.RegisterRobot? {
      assert s.registered + {a.id} + {b.id} == s.registered + {b.id} + {a.id};
    }
  }

  /** The event log is write-only: results and storage depend on storage alone. */
  lemma StorageDetermines(cap: nat, s: Chain, t: Chain, call: Call)
    requires SameStorage(s, t)
    ensures SameStorage(Exec(cap, s, call).chain, Exec(cap, t, call).chain)
    ensures Exec(cap, s, call).result == Exec(cap, t, call).result
  {
  }

  lemma {:induction false} StorageDeterminesRun(cap: nat, s: Chain, t: Chain, calls: seq<Call>)
    requires SameStorage(s, t)
    ensures SameStorage(Run(cap, s, calls), Run(cap, t, calls))
    ensures Results(cap, s, calls) == Results(cap, t, calls)
  {
    if calls != [] {
      var front := calls[..|calls| - 1];
      StorageDeterminesRun(cap, s, t, front);
      StorageDetermines(cap, Run(cap, s, front), Run(cap, t, front), calls[|calls| - 1]);
    }
  }

  lemma {:induction false} RunConcat(cap: nat, s: Chain, a: seq<Call>, b: seq<Call>)
    ensures Run(cap, s, a + b) == Run(cap, Run(cap, s, a), b)
    ensures Results(cap, s, a + b) == Results(cap, s, a) + Results(cap, Run(cap, s, a), b)
  {
    if b == [] {
      assert a + b == a;
    } else {
      var n := |b| - 1;
      assert (a + b)[..|a + b| - 1] == a + b[..n];
      RunConcat(cap, s, a, b[..n]);
    }
  }

  lemma RunOne(cap: nat, s: Chain, a: Call)
    ensures Run(cap, s, [a]) == Exec(cap, s, a).chain
    ensures Results(cap, s, [a]) == [Exec(cap, s, a).result]
  {
    assert [a][..0] == [];
  }

  lemma RunTwo(cap: nat, s: Chain, a: Call, b: Call)
    ensures Run(cap, s, [a, b]) == Exec(cap, Exec(cap, s, a).chain, b).chain
    ensures Results(cap, s, [a, b]) == [Exec(cap, s, a).result, Exec(cap, Exec(cap, s, a).chain, b).result]
  {
    assert [a, b] == [a] + [b];
    RunConcat(cap, s, [a], [b]);
    RunOne(cap, s, a);
    RunOne(cap, Exec(cap, s, a).chain, b);
  }

  /** Swapping two adjacent calls that commute where they stand is invisible to the rest of any
      sequence: same final storage, same result for every call. */
  lemma SwapAdjacent(cap: nat, s: Chain, pre: seq<Call>, a: Call, b: Call, post: seq<Call>)
    requires Commute(cap, Run(cap, s, pre), a, b)
    ensures SameStorage(Run(cap, s, pre + [a, b] + post), Run(cap, s, pre + [b, a] + post))
    ensures var x, y := Results(cap, s, pre + [a, b] + post), Results(cap, s, pre + [b, a] + post);
            && |x| == |y| == |pre| + 2 + |post|
            && x == y[..|pre|] + [y[|pre| + 1], y[|pre|]] + y[|pre| + 2..]
  {
    var u := Run(cap, s, pre);
    RunConcat(cap, s, pre, [a, b]);
    RunConcat(cap, s, pre, [b, a]);
    RunConcat(cap, s, pre + [a, b], post);
    RunConcat(cap, s, pre + [b, a], post);
    RunTwo(cap, u, a, b);
    RunTwo(cap, u, b, a);
    StorageDeterminesRun(cap, Run(cap, u, [a, b]), Run(cap, u, [b, a]), post);
    ResultsLength(cap, s, pre);
    ResultsLength(cap, Run(cap, u, [b, a]), post);
    var x, y := Exec(cap, u, a).result, Exec(cap, u, b).result;
    SwapMiddle(Results(cap, s, pre), x, y, Results(cap, Run(cap, u, [b, a]), post));
  }

  lemma SwapMiddle<T>(p: seq<T>, x: T, y: T, q: seq<T>)
    ensures var w := p + [y, x] + q;
            p + [x, y] + q == w[..|p|] + [w[|p| + 1], w[|p|]] + w[|p| + 2..]
  {
  }

  lemma {:induction false} ResultsLength(cap: nat, s: Chain, calls: seq<Call>)
    ensures |Results(cap, s, calls)| == |calls|
  {
    if calls != [] {
      ResultsLength(cap, s, calls[..|calls| - 1]);
    }
  }

  /** Some call of the block is the pull that a registration does not commute with: signed, by the
      same id, and at a point where that id is not registered. */
  predicate Blocked(cap: nat, s: Chain, calls: seq<Call>, a: Call)
    requires a.RegisterRobot?
  {
    exists i :: 0 <= i < |calls| && BlockedAt(cap, s, calls, a, i)
  }

  predicate BlockedAt(cap: nat, s: Chain, calls: seq<Call>, a: Call, i: nat)
    requires a.RegisterRobot? && i < |calls|
  {
    && a.origin.Signed?
    && calls[i].PullNext? && calls[i].origin.Signed? && calls[i].id == a.id
    && a.id !in Run(cap, s, calls[..i]).registered
  }

  /** The registration `a` may come first or last: same state, event log included, and the same
      result for it and for every call of the block. */
  predicate Hoistable(cap: nat, s: Chain, calls: seq<Call>, a: Call) {
    var result := Exec(cap, s, a).result;
    && Run(cap, s, calls + [a]) == Run(cap, s, [a] + calls)
    && Results(cap, s, calls + [a]) == Results(cap, s, calls) + [result]
    && Results(cap, s, [a] + calls) == [result] + Results(cap, s, calls)
  }

  /** A registration may be moved to the front of a block exactly when no call of the block is
      blocked by it. */
  lemma HoistRegistration(cap: nat, s: Chain, calls: seq<Call>, a: Call)
    requires a.RegisterRobot?
    ensures Hoistable(cap, s, calls, a) <==> !Blocked(cap, s, calls, a)
  {
    if Blocked(cap, s, calls, a) {
      var i :| 0 <= i < |calls| && BlockedAt(cap, s, calls, a, i);
      BlockedDiffers(cap, s, calls, a, i);
    } else {
      HoistUnblocked(cap, s, calls, a);
    }
  }

  lemma {:induction false} HoistUnblocked(cap: nat, s: Chain, calls: seq<Call>, a: Call)
    requires a.RegisterRobot? && !Blocked(cap, s, calls, a)
    ensures Hoistable(cap, s, calls, a)
    decreases |calls|
  {
    if calls == [] {
      assert calls + [a] == [a] == [a] + calls;
      RunOne(cap, s, a);
    } else {
      var n := |calls| - 1;
      var front, b := calls[..n], calls[n];
      var u := Run(cap, s, front);
      forall i | 0 <= i < n ensures !BlockedAt(cap, s, front, a, i) {
        assert front[..i] == calls[..i];
        assert !BlockedAt(cap, s, calls, a, i);
      }
      HoistUnblocked(cap, s, front, a);
      RunConcat(cap, s, front, [a]);
      RunOne(cap, u, a);
      assert !BlockedAt(cap, s, calls, a, n);
      RegisterCommutes(cap, u, a, b);
      RunConcat(cap, s, calls, [a]);
      RunOne(cap, Run(cap, s, calls), a);
      assert ([a] + calls)[..n + 1] == [a] + front;
      assert Results(cap, s, [a] + calls)
          == Results(cap, s, [a] + front) + [Exec(cap, Run(cap, s, [a] + front), b).result];
    }
  }

  lemma {:induction false} RegistryGrows(cap: nat, s: Chain, calls: seq<Call>)
    ensures s.registered <= Run(cap, s, calls).registered
  {
    if calls != [] {
      RegistryGrows(cap, s, calls[..|calls| - 1]);
    }
  }

  lemma {:induction false} ResultAt(cap: nat, s: Chain, calls: seq<Call>, i: nat)
    requires i < |calls|
    ensures |Results(cap, s, calls)| == |calls|
    ensures Results(cap, s, calls)[i] == Exec(cap, Run(cap, s, calls[..i]), calls[i]).result
  {
    var front := calls[..|calls| - 1];
    ResultsLength(cap, s, front);
    if i < |front| {
      ResultAt(cap, s, front, i);
      assert front[..i] == calls[..i];
    }
  }

  lemma BlockedDiffers(cap: nat, s: Chain, calls: seq<Call>, a: Call, i: nat)
    requires a.RegisterRobot? && i < |calls| && BlockedAt(cap, s, calls, a, i)
    ensures !Hoistable(cap, s, calls, a)
  {
    var hoisted := [a] + calls;
    ResultAt(cap, s, calls, i);
    ResultAt(cap, s, hoisted, i + 1);
    assert hoisted[..i + 1] == [a] + calls[..i];
    RunConcat(cap, s, [a], calls[..i]);
    RunOne(cap, s, a);
    RegistryGrows(cap, Run(cap, s, [a]), calls[..i]);
    assert Results(cap, s, hoisted)[i + 1] != Results(cap, s, calls)[i];
  }
}
