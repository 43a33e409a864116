/** The client protocol of `swarmbase-ui/app/page.tsx`: any number of pages click, enqueue, and
    pull once their enqueue is finalised.  The system is closed (only these pages call the
    pallet), every interleaving is allowed, and transactions and callbacks may be lost. */
module Protocol {
  import opened Pallet
  import opened Sequences

  /** A page: the length of its robot list, and the registrations submitted by it whose local
      list update is still to come. */
  datatype Client = Client(robots: nat, pendingAdds: nat)

  /** An `enqueueCommand` in flight, with `robots[0]?.id` of the list captured at the click. */
  datatype EnqueueTx = EnqueueTx(command: Command, first: Option<RobotId>)

  /** An enqueue that succeeded and whose finality callback is to come.  The ticket n says that it
      was the n-th successful one, counting from zero. */
  datatype Callback = Callback(ticket: nat, first: Option<RobotId>)

  /** A `pullNext` in flight, with the ticket of the enqueue that triggered it. */
  datatype PullTx = PullTx(ticket: nat, id: RobotId)

  /** `lost` counts the successful enqueues whose pull will never take a command: the callback
      never came, or found no robots, or the pull was dropped or failed. */
  datatype System = System(chain: Chain, clients: seq<Client>, registrations: seq<RobotId>,
                           enqueues: seq<EnqueueTx>, callbacks: seq<Callback>, pulls: seq<PullTx>, lost: nat)

  const INIT: System := System(GENESIS, [], [], [], [], [], 0)

  /** One signer is shared by all pages. */
  const SIGNER: Origin := Signed(0)

  /** `seen` is the list length in the render whose closure runs, which may be an older one.  A
      length that is no u32 cannot be encoded as a robot id. */
  datatype Step =
    | OpenPage
    | ClickRegister(client: nat, seen: nat)
    | AddLocally(client: nat)
    | IncludeRegister(k: nat)
    | DropRegister(k: nat)
    | ClickCanvas(client: nat, seen: nat, location: Coordinate)
    | IncludeEnqueue(k: nat)
    | DropEnqueue(k: nat)
    | Finalize(k: nat)
    | LoseCallback(k: nat)
    | IncludePull(k: nat)
    | DropPull(k: nat)

  predicate Enabled(s: System, step: Step) {
    match step
    case OpenPage => true
    case ClickRegister(c, seen) =>
      c < |s.clients| && seen <= s.clients[c].robots && seen < 0x1_0000_0000
    case AddLocally(c) => c < |s.clients| && s.clients[c].pendingAdds > 0
    case IncludeRegister(k) => k < |s.registrations|
    case DropRegister(k) => k < |s.registrations|
    case ClickCanvas(c, seen, _) => c < |s.clients| && seen <= s.clients[c].robots
    case IncludeEnqueue(k) => k < |s.enqueues|
    case DropEnqueue(k) => k < |s.enqueues|
    case Finalize(k) => k < |s.callbacks|
    case LoseCallback(k) => k < |s.callbacks|
    case IncludePull(k) => k < |s.pulls|
    case DropPull(k) => k < |s.pulls|
  }

  /** `robots[0].id`: the robot at index 0 has id 0. */
  function FirstRobot(seen: nat): Option<RobotId> {
    if seen == 0 then None else Some(0)
  }

  function Include(cap: nat, s: System, k: nat): System
    requires k < |s.enqueues|
  {
    var tx := s.enqueues[k];
    var o := Enqueue(cap, s.chain, SIGNER, tx.command);
    var t := s.(chain := o.chain, enqueues := Remove(s.enqueues, k));
    if o.result.Ok? then t.(callbacks := s.callbacks + [Callback(|Enqueued(s.chain.events)|, tx.first)]) else t
  }

  function CommandPull(s: System, k: nat): System
    requires k < |s.callbacks|
  {
    var c := s.callbacks[k];
    var t := s.(callbacks := Remove(s.callbacks, k));
    match c.first
    case None => t.(lost := s.lost + 1)
    case Some(id) => t.(pulls := s.pulls + [PullTx(c.ticket, id)])
  }

  function Deliver(s: System, k: nat): System
    requires k < |s.pulls|
  {
    var o := Pull(s.chain, SIGNER, s.pulls[k].id);
    s.(chain := o.chain, pulls := Remove(s.pulls, k), lost := if o.result.Ok? then s.lost else s.lost + 1)
  }

  /** A step that is not enabled does nothing. */
  function Next(cap: nat, s: System, step: Step): System {
    if !Enabled(s, step) then s
    else
      match step
      case OpenPage => s.(clients := s.clients + [Client(0, 0)])
      case ClickRegister(c, seen) =>
        s.(registrations := s.registrations + [seen],
           clients := s.clients[c := s.clients[c].(pendingAdds := s.clients[c].pendingAdds + 1)])
      case AddLocally(c) =>
        s.(clients := s.clients[c := Client(s.clients[c].robots + 1, s.clients[c].pendingAdds - 1)])
      case IncludeRegister(k) =>
        s.(chain := Register(s.chain, SIGNER, s.registrations[k]).chain,
           registrations := Remove(s.registrations, k))
      case DropRegister(k) => s.(registrations := Remove(s.registrations, k))
      case ClickCanvas(c, seen, location) =>
        s.(enqueues := s.enqueues + [EnqueueTx(GoToLocation(location), FirstRobot(seen))])
      case IncludeEnqueue(k) => Include(cap, s, k)
      case DropEnqueue(k) => s.(enqueues := Remove(s.enqueues, k))
      case Finalize(k) => CommandPull(s, k)
      case LoseCallback(k) => s.(callbacks := Remove(s.callbacks, k), lost := s.lost + 1)
      case IncludePull(k) => Deliver(s, k)
      case DropPull(k) => s.(pulls := Remove(s.pulls, k), lost := s.lost + 1)
  }

  function Run(cap: nat, s: System, steps: seq<Step>): System
    decreases |steps|
  {
    if steps == [] then s else Run(cap, Next(cap, s, steps[0]), steps[1..])
  }

  // ---------- The pages and the network as objects ----------

  class Network {
    const chain: Storage
    var clients: seq<Client>
    var registrations: seq<RobotId>
    var enqueues: seq<EnqueueTx>
    var callbacks: seq<Callback>
    var pulls: seq<PullTx>
    var lost: nat

    function State(): System
      reads this, chain
    {
      System(chain.State(), clients, registrations, enqueues, callbacks, pulls, lost)
    }

    constructor (chain: Storage)
      requires chain.State() == GENESIS
      ensures this.chain == chain && State() == INIT
    {
      this.chain := chain;
      clients, registrations, enqueues, callbacks, pulls, lost := [], [], [], [], [], 0;
    }

    method Open()
      modifies this
      ensures State() == Next(chain.capacity, old(State()), OpenPage)
    {
      clients := clients + [Client(0, 0)];
    }

    /** `registerRobot` up to the submission of its transaction. */
    method RegisterRobot(c: nat, seen: nat)
      requires Enabled(State(), ClickRegister(c, seen))
      modifies this
      ensures State() == Next(chain.capacity, old(State()), ClickRegister(c, seen))
    {
      registrations := registrations + [seen];
      clients := clients[c := clients[c].(pendingAdds := clients[c].pendingAdds + 1)];
    }

    /** `registerRobot` after the submission: the robot joins the local list. */
    method AddRobot(c: nat)
      requires Enabled(State(), AddLocally(c))
      modifies this
      ensures State() == Next(chain.capacity, old(State()), AddLocally(c))
    {
      clients := clients[c := Client(clients[c].robots + 1, clients[c].pendingAdds - 1)];
    }

    method HandleCanvasClick(c: nat, seen: nat, x: U32, y: U32)
      requires Enabled(State(), ClickCanvas(c, seen, Coordinate(x, y)))
      modifies this
      ensures State() == Next(chain.capacity, old(State()), ClickCanvas(c, seen, Coordinate(x, y)))
    {
      var first := if seen == 0 then None else Some(0);
      enqueues := enqueues + [EnqueueTx(GoToLocation(Coordinate(x, y)), first)];
    }

    method ExecuteRegister(k: nat)
      requires Enabled(State(), IncludeRegister(k))
      modifies this, chain
      ensures State() == Next(chain.capacity, old(State()), IncludeRegister(k))
    {
      var _ := chain.RegisterRobot(SIGNER, registrations[k]);
      registrations := Remove(registrations, k);
    }

    /** Execution of an enqueue; on a dispatch error the client only logs. */
    method ExecuteEnqueue(k: nat)
      requires Enabled(State(), IncludeEnqueue(k))
      modifies this, chain
      ensures State() == Next(chain.capacity, old(State()), IncludeEnqueue(k))
    {
      var tx := enqueues[k];
      var ticket := |Enqueued(chain.events)|;
      var result := chain.EnqueueCommand(SIGNER, tx.command);
      enqueues := Remove(enqueues, k);
      if result.Ok? {
        callbacks := callbacks + [Callback(ticket, tx.first)];
      }
    }

    /** The finality callback of an enqueue calls `commandPull`. */
    method OnFinalized(k: nat)
      requires Enabled(State(), Finalize(k))
      modifies this
      ensures State() == Next(chain.capacity, old(State()), Finalize(k))
    {
      var callback := callbacks[k];
      callbacks := Remove(callbacks, k);
      match callback.first
      case None => lost := lost + 1;
      case Some(id) => pulls := pulls + [PullTx(callback.ticket, id)];
    }

    method ExecutePull(k: nat)
      requires Enabled(State(), IncludePull(k))
      modifies this, chain
      ensures State() == Next(chain.capacity, old(State()), IncludePull(k))
    {
      var result := chain.PullNext(SIGNER, pulls[k].id);
      pulls := Remove(pulls, k);
      if result.Err? {
        lost := lost + 1;
      }
    }

    /** A transaction that never executes, or a callback that never comes. */
    method Lose(step: Step)
      requires step.DropRegister? || step.DropEnqueue? || step.LoseCallback? || step.DropPull?
      requires Enabled(State(), step)
      modifies this
      ensures State() == Next(chain.capacity, old(State()), step)
    {
      if step.DropRegister? {
        registrations := Remove(registrations, step.k);
      } else if step.DropEnqueue? {
        enqueues := Remove(enqueues, step.k);
      } else if step.LoseCallback? {
        callbacks, lost := Remove(callbacks, step.k), lost + 1;
      } else {
        pulls, lost := Remove(pulls, step.k), lost + 1;
      }
    }
  }

  // ---------- The accounting of a closed system ----------

  /** Every command in the queue is owed to a pull in flight, to a callback still to come, or to a
      pull that was lost. */
  ghost predicate Accounted(cap: nat, s: System) {
    && Conserved(cap, s.chain)
    && |s.chain.queue| == |s.pulls| + |s.callbacks| + s.lost
  }

  lemma StepAccounts(cap: nat, s: System, step: Step)
    requires Accounted(cap, s)
    ensures Accounted(cap, Next(cap, s, step))
    ensures s.lost <= Next(cap, s, step).lost
  {
    if Enabled(s, step) {
      match step
      case IncludeRegister(k) => ExecConserves(cap, s.chain, Call.RegisterRobot(SIGNER, s.registrations[k]));
      case IncludeEnqueue(k) => ExecConserves(cap, s.chain, Call.EnqueueCommand(SIGNER, s.enqueues[k].command));
      case IncludePull(k) => ExecConserves(cap, s.chain, Call.PullNext(SIGNER, s.pulls[k].id));
      case _ =>
    }
  }

  /** The invariant over every run of any number of pages, and the lag never decreasing. */
  lemma {:induction false} RunAccounts(cap: nat, s: System, steps: seq<Step>)
    requires Accounted(cap, s)
    ensures Accounted(cap, Run(cap, s, steps))
    ensures s.lost <= Run(cap, s, steps).lost <= cap
    decreases |steps|
  {
    if steps != [] {
      StepAccounts(cap, s, steps[0]);
      RunAccounts(cap, Next(cap, s, steps[0]), steps[1..]);
    }
  }

  /** In a closed system a pull never meets `QueueEmpty`: whatever happened before, it succeeds
      exactly when its robot is registered. */
  lemma NeverQueueEmpty(cap: nat, steps: seq<Step>, k: nat)
    requires k < |Run(cap, INIT, steps).pulls|
    ensures var s := Run(cap, INIT, steps);
            && Pull(s.chain, SIGNER, s.pulls[k].id).result
               == if s.pulls[k].id in s.chain.registered then Ok else Err(InvalidRobotId)
  {
    RunAccounts(cap, INIT, steps);
  }

  // ---------- Which command a pull delivers ----------

  /** A successful pull delivers the enqueued command whose index is the number of successful
      enqueues so far, less the lag, less what is outstanding. */
  lemma DeliveredIndex(cap: nat, s: System, k: nat)
    requires Accounted(cap, s) && k < |s.pulls|
    requires s.pulls[k].id in s.chain.registered
    ensures var log, t := Enqueued(s.chain.events), Next(cap, s, IncludePull(k)).chain;
            var n := |log| - s.lost - |s.pulls| - |s.callbacks|;
            && 0 <= n < |log|
            && t.events == s.chain.events + [CommandPulled(s.pulls[k].id, log[n], CoordinateOf(log[n]))]
  {
    var log := Enqueued(s.chain.events);
    var n := |Pulled(s.chain.events)|;
    assert log[n] == (Pulled(s.chain.events) + s.chain.queue)[n] == s.chain.queue[0];
  }

  /** Serialised clicks: the canvas is clicked only when no earlier click has anything left to
      do. */
  ghost predicate Serialised(cap: nat, s: System, steps: seq<Step>)
    decreases |steps|
  {
    steps != [] ==>
      && (steps[0].ClickCanvas? ==> |s.enqueues| + |s.callbacks| + |s.pulls| == 0)
      && Serialised(cap, Next(cap, s, steps[0]), steps[1..])
  }

  /** With serialised clicks at most one thing is outstanding, and it belongs to the latest
      successful enqueue. */
  ghost predicate OneOutstanding(s: System) {
    && |s.enqueues| + |s.callbacks| + |s.pulls| <= 1
    && (forall c :: c in s.callbacks ==> c.ticket + 1 == |Enqueued(s.chain.events)|)
    && (forall p :: p in s.pulls ==> p.ticket + 1 == |Enqueued(s.chain.events)|)
  }

  lemma EnqueuedAfter(cap: nat, s: Chain, call: Call)
    ensures var o := Exec(cap, s, call);
            && |Enqueued(o.chain.events)|
               == |Enqueued(s.events)| + (if call.EnqueueCommand? && o.result.Ok? then 1 else 0)
  {
    var t := Exec(cap, s, call).chain;
    if t.events != s.events {
      assert t.events[..|t.events| - 1] == s.events;
    }
  }

  lemma StepOneOutstanding(cap: nat, s: System, step: Step)
    requires OneOutstanding(s)
    requires step.ClickCanvas? ==> |s.enqueues| + |s.callbacks| + |s.pulls| == 0
    ensures OneOutstanding(Next(cap, s, step))
  {
    if Enabled(s, step) {
      match step
      case IncludeRegister(k) => EnqueuedAfter(cap, s.chain, Call.RegisterRobot(SIGNER, s.registrations[k]));
      case IncludeEnqueue(k) => EnqueuedAfter(cap, s.chain, Call.EnqueueCommand(SIGNER, s.enqueues[k].command));
      case IncludePull(k) => EnqueuedAfter(cap, s.chain, Call.PullNext(SIGNER, s.pulls[k].id));
      case _ =>
    }
  }

  lemma {:induction false} RunOneOutstanding(cap: nat, s: System, steps: seq<Step>)
    requires OneOutstanding(s) && Serialised(cap, s, steps)
    ensures OneOutstanding(Run(cap, s, steps))
    decreases |steps|
  {
    if steps != [] {
      StepOneOutstanding(cap, s, steps[0]);
      RunOneOutstanding(cap, Next(cap, s, steps[0]), steps[1..]);
    }
  }

  /** Delivery lag: with serialised clicks the pull triggered by the n-th successful enqueue
      delivers command n - lag, where lag is the number of pulls lost so far; so it delivers its
      own command exactly while nothing has been lost (or the commands happen to be equal). */
  lemma DeliveryLag(cap: nat, steps: seq<Step>, k: nat)
    requires Serialised(cap, INIT, steps)
    requires k < |Run(cap, INIT, steps).pulls|
    requires Run(cap, INIT, steps).pulls[k].id in Run(cap, INIT, steps).chain.registered
    ensures var s := Run(cap, INIT, steps);
            var log, n := Enqueued(s.chain.events), s.pulls[k].ticket - s.lost;
            && 0 <= n < |log|
            && Next(cap, s, IncludePull(k)).chain.events
               == s.chain.events + [CommandPulled(s.pulls[k].id, log[n], CoordinateOf(log[n]))]
  {
    var s := Run(cap, INIT, steps);
    RunAccounts(cap, INIT, steps);
    RunOneOutstanding(cap, INIT, steps);
    assert s.pulls[k] in s.pulls;
    DeliveredIndex(cap, s, k);
  }

  /** Nothing of any earlier click is left to do. */
  predicate Idle(s: System) {
    s.enqueues == [] && s.callbacks == [] && s.pulls == []
  }

  /** A click, its enqueue, the finality callback and the pull, with nothing lost in between. */
  function ClickThrough(client: nat, seen: nat, location: Coordinate): seq<Step> {
    [ClickCanvas(client, seen, location), IncludeEnqueue(0), Finalize(0), IncludePull(0)]
  }

  lemma FourSteps(cap: nat, s: System, steps: seq<Step>)
    requires |steps| == 4
    ensures Run(cap, s, steps)
         == Next(cap, Next(cap, Next(cap, Next(cap, s, steps[0]), steps[1]), steps[2]), steps[3])
  {
    TwoSteps(cap, s, steps);
    TwoSteps(cap, Next(cap, Next(cap, s, steps[0]), steps[1]), steps[2..]);
  }

  lemma TwoSteps(cap: nat, s: System, steps: seq<Step>)
    requires |steps| >= 2
    ensures Run(cap, s, steps) == Run(cap, Next(cap, Next(cap, s, steps[0]), steps[1]), steps[2..])
  {
    assert steps[1..][0] == steps[1] && steps[1..][1..] == steps[2..];
  }

  /** What a click from an idle state does when nothing is lost on the way: with room in the queue,
      a robot on the page and robot 0 on the chain, it enqueues its command and pulls the front of
      the queue, which is its own command only if the queue was empty. */
  lemma ClickPullsFront(cap: nat, s: System, client: nat, seen: nat, location: Coordinate)
    requires Idle(s) && Enabled(s, ClickCanvas(client, seen, location)) && seen > 0
    requires |s.chain.queue| < cap && 0 in s.chain.registered
    ensures var own := GoToLocation(location);
            var front := if s.chain.queue == [] then own else s.chain.queue[0];
            && Run(cap, s, ClickThrough(client, seen, location)).chain.events
               == s.chain.events + [CommandEnqueued(own), CommandPulled(0, front, CoordinateOf(front))]
  {
    var steps := ClickThrough(client, seen, location);
    var ticket := |Enqueued(s.chain.events)|;
    var s1 := Next(cap, s, steps[0]);
    var s2 := Next(cap, s1, steps[1]);
    var s3 := Next(cap, s2, steps[2]);
    FourSteps(cap, s, steps);
    assert s1.enqueues == [EnqueueTx(GoToLocation(location), Some(0))];
    assert s2.callbacks == [Callback(ticket, Some(0))];
    assert s3.pulls == [PullTx(ticket, 0)];
    assert s3.chain.queue[0] == if s.chain.queue == [] then GoToLocation(location) else s.chain.queue[0];
  }

  /** The click delivers its own command: the run deposits the enqueue and then the pull that
      takes that very entry, which is the last one enqueued and the last one pulled. */
  predicate DeliversOwn(cap: nat, s: System, client: nat, seen: nat, location: Coordinate) {
    var own := GoToLocation(location);
    var t := Run(cap, s, ClickThrough(client, seen, location));
    && t.chain.events == s.chain.events + [CommandEnqueued(own), CommandPulled(0, own, Some(location))]
    && |Pulled(t.chain.events)| == |Enqueued(t.chain.events)|
  }

  lemma TwoEvents(events: seq<Event>, a: Event, b: Event)
    requires a.CommandEnqueued? && b.CommandPulled?
    ensures |Enqueued(events + [a, b])| == |Enqueued(events)| + 1
    ensures |Pulled(events + [a, b])| == |Pulled(events)| + 1
  {
    assert (events + [a, b])[..|events| + 1] == events + [a];
    assert (events + [a])[..|events|] == events;
  }

  /** The exact condition, all of it visible before the click: the page has a robot, robot 0 is on
      the chain, and the queue is empty (and can hold a command at all).  In an idle state an empty
      queue is the same as no pull ever lost. */
  lemma OwnCommandIff(cap: nat, s: System, client: nat, seen: nat, location: Coordinate)
    requires Accounted(cap, s) && Idle(s) && Enabled(s, ClickCanvas(client, seen, location))
    ensures DeliversOwn(cap, s, client, seen, location)
       <==> seen > 0 && 0 in s.chain.registered && s.chain.queue == [] && cap > 0
    ensures s.chain.queue == [] <==> s.lost == 0
  {
    var own := GoToLocation(location);
    assert |Pulled(s.chain.events)| + |s.chain.queue| == |Enqueued(s.chain.events)|;
    TwoEvents(s.chain.events, CommandEnqueued(own), CommandPulled(0, own, Some(location)));
    if cap == 0 || seen == 0 || 0 !in s.chain.registered {
      NothingPulled(cap, s, client, seen, location);
    } else if s.chain.queue == [] {
      ClickPullsFront(cap, s, client, seen, location);
    }
  }

  lemma NothingPulled(cap: nat, s: System, client: nat, seen: nat, location: Coordinate)
    requires Idle(s) && Enabled(s, ClickCanvas(client, seen, location))
    requires cap == 0 || seen == 0 || 0 !in s.chain.registered
    ensures |Run(cap, s, ClickThrough(client, seen, location)).chain.events| <= |s.chain.events| + 1
  {
    var steps := ClickThrough(client, seen, location);
    var s1 := Next(cap, s, steps[0]);
    var s2 := Next(cap, s1, steps[1]);
    var s3 := Next(cap, s2, steps[2]);
    FourSteps(cap, s, steps);
    assert s1.enqueues == [EnqueueTx(GoToLocation(location), FirstRobot(seen))];
    assert s3.pulls == [] || (s3.pulls[0].id == 0 && 0 !in s3.chain.registered);
  }

  /** A click made before any robot was registered. */
  function LosingSteps(a: Coordinate): seq<Step> {
    [OpenPage, ClickCanvas(0, 0, a), IncludeEnqueue(0), Finalize(0)]
  }

  /** Then a robot is registered and the canvas is clicked again. */
  function SecondClick(b: Coordinate): seq<Step> {
    [ClickRegister(0, 0), AddLocally(0), IncludeRegister(0), ClickCanvas(0, 1, b), IncludeEnqueue(0), Finalize(0)]
  }

  /** One page that clicks before it has a robot loses a pull: nothing is outstanding any more, and
      its command stays in the queue. */
  lemma PullCanBeLost(cap: nat, a: Coordinate)
    requires cap > 0
    ensures Run(cap, INIT, LosingSteps(a))
         == System(Chain({}, [GoToLocation(a)], [CommandEnqueued(GoToLocation(a))]), [Client(0, 0)], [], [], [], [], 1)
    ensures Serialised(cap, INIT, LosingSteps(a))
  {
    var steps := LosingSteps(a);
    var s1 := Next(cap, INIT, steps[0]);
    var s2 := Next(cap, s1, steps[1]);
    var s3 := Next(cap, s2, steps[2]);
    FourSteps(cap, INIT, steps);
    assert s2.enqueues == [EnqueueTx(GoToLocation(a), None)];
    assert s3.callbacks == [Callback(0, None)];
    assert steps[1..][1..] == steps[2..] && steps[1..][0] == steps[1];
    NoClicksSerialised(cap, s2, steps[2..]);
    assert Idle(s1) && Serialised(cap, s1, steps[1..]);
  }

  lemma {:induction false} RunSteps(cap: nat, s: System, a: seq<Step>, b: seq<Step>)
    ensures Run(cap, s, a + b) == Run(cap, Run(cap, s, a), b)
    ensures Serialised(cap, s, a) && Serialised(cap, Run(cap, s, a), b) ==> Serialised(cap, s, a + b)
    decreases |a|
  {
    if a == [] {
      assert a + b == b;
    } else {
      assert (a + b)[1..] == a[1..] + b;
      RunSteps(cap, Next(cap, s, a[0]), a[1..], b);
    }
  }

  /** The failing run: from then on, with serialised clicks and every later step succeeding, the
      page that clicks b delivers a. */
  lemma WrongCommandDelivered(cap: nat, a: Coordinate, b: Coordinate)
    requires cap >= 2
    ensures var history := LosingSteps(a) + SecondClick(b);
            var s := Run(cap, INIT, history);
            && Serialised(cap, INIT, history)
            && Enqueued(s.chain.events) == [GoToLocation(a), GoToLocation(b)]
            && s.lost == 1 && s.pulls == [PullTx(1, 0)]
            && Next(cap, s, IncludePull(0)).chain.events
               == s.chain.events + [CommandPulled(0, GoToLocation(a), Some(a))]
  {
    var s := Run(cap, INIT, LosingSteps(a));
    var steps := SecondClick(b);
    PullCanBeLost(cap, a);
    RunSteps(cap, INIT, LosingSteps(a), steps);
    var s1 := Next(cap, s, steps[0]);
    var s2 := Next(cap, s1, steps[1]);
    var s3 := Next(cap, s2, steps[2]);
    var s4 := Next(cap, s3, steps[3]);
    var s5 := Next(cap, s4, steps[4]);
    var s6 := Next(cap, s5, steps[5]);
    assert s.chain.events[..0] == [];
    assert Enqueued(s.chain.events) == [GoToLocation(a)];
    assert s3.chain.registered == {0} && s3.clients[0].robots == 1;
    assert s4.enqueues == [EnqueueTx(GoToLocation(b), Some(0))];
    assert s5.callbacks == [Callback(1, Some(0))];
    assert s5.chain.events[..1] == s.chain.events;
    assert s6.pulls == [PullTx(1, 0)];
    SixSteps(cap, s, steps);
    SixSerialised(cap, s, steps);
  }

  lemma SixSteps(cap: nat, s: System, steps: seq<Step>)
    requires |steps| == 6
    ensures Run(cap, s, steps)
         == Next(cap, Next(cap, Next(cap, Next(cap, Next(cap, Next(cap, s,
              steps[0]), steps[1]), steps[2]), steps[3]), steps[4]), steps[5])
  {
    TwoSteps(cap, s, steps);
    FourSteps(cap, Next(cap, Next(cap, s, steps[0]), steps[1]), steps[2..]);
  }

  lemma SixSerialised(cap: nat, s: System, steps: seq<Step>)
    requires |steps| == 6 && Idle(s)
    requires forall i :: 0 <= i < 6 && i != 3 ==> !steps[i].ClickCanvas?
    requires forall i :: 0 <= i < 3 ==> steps[i].ClickRegister? || steps[i].AddLocally? || steps[i].IncludeRegister?
    ensures Serialised(cap, s, steps)
  {
    var s1 := Next(cap, s, steps[0]);
    var s2 := Next(cap, s1, steps[1]);
    var s3 := Next(cap, s2, steps[2]);
    assert Idle(s1) && Idle(s2) && Idle(s3);
    NoClicksSerialised(cap, Next(cap, s3, steps[3]), steps[4..]);
    assert steps[3..][1..] == steps[4..] && steps[2..][1..] == steps[3..] && steps[1..][1..] == steps[2..];
    assert Serialised(cap, s3, steps[3..]);
    assert Serialised(cap, s2, steps[2..]);
    assert Serialised(cap, s1, steps[1..]);
  }

  lemma {:induction false} NoClicksSerialised(cap: nat, s: System, steps: seq<Step>)
    requires forall i :: 0 <= i < |steps| ==> !steps[i].ClickCanvas?
    ensures Serialised(cap, s, steps)
    decreases |steps|
  {
    if steps != [] {
      NoClicksSerialised(cap, Next(cap, s, steps[0]), steps[1..]);
    }
  }

  // ---------- The absorbing states ----------

  /** Callbacks whose click captured an empty robot list: they will not pull. */
  function Silent(callbacks: seq<Callback>): nat {
    if callbacks == [] then 0
    else Silent(callbacks[..|callbacks| - 1]) + (if callbacks[|callbacks| - 1].first.None? then 1 else 0)
  }

  lemma {:induction false} SilentBound(callbacks: seq<Callback>)
    ensures Silent(callbacks) <= |callbacks|
    ensures Silent(callbacks) == |callbacks| <==> forall c :: c in callbacks ==> c.first.None?
  {
    if callbacks != [] {
      var front, last := callbacks[..|callbacks| - 1], callbacks[|callbacks| - 1];
      SilentBound(front);
      assert callbacks == front + [last];
      assert forall c :: c in callbacks <==> c in front || c == last;
    }
  }

  /** The lost pulls, and those that are bound to be lost, fill the queue. */
  predicate Stuck(cap: nat, s: System) {
    s.lost + Silent(s.callbacks) == cap
  }

  lemma StuckState(cap: nat, s: System)
    requires Accounted(cap, s) && Stuck(cap, s)
    ensures s.pulls == [] && |s.chain.queue| == cap
    ensures forall c :: c in s.callbacks ==> c.first.None?
  {
    SilentBound(s.callbacks);
  }

  lemma StuckStep(cap: nat, s: System, step: Step)
    requires Accounted(cap, s) && Stuck(cap, s)
    ensures Stuck(cap, Next(cap, s, step))
    ensures Next(cap, s, step).chain.queue == s.chain.queue
    ensures Next(cap, s, step).chain.events == s.chain.events
    ensures step.IncludeEnqueue? && Enabled(s, step)
            ==> Enqueue(cap, s.chain, SIGNER, s.enqueues[step.k].command).result == Err(QueueFull)
  {
    StuckState(cap, s);
    if (step.Finalize? || step.LoseCallback?) && Enabled(s, step) {
      assert s.callbacks[step.k] in s.callbacks;
      SilentBound(s.callbacks);
      SilentBound(Remove(s.callbacks, step.k));
    }
  }

  /** Absorbing: from a stuck state, in every continuation, no pull is ever issued, the very same
      commands stay in the full queue, and no event is deposited any more. */
  lemma {:induction false} StuckForever(cap: nat, s: System, steps: seq<Step>)
    requires Accounted(cap, s) && Stuck(cap, s)
    ensures var t := Run(cap, s, steps);
            && Stuck(cap, t)
            && t.pulls == []
            && t.chain.queue == s.chain.queue
            && |t.chain.queue| == cap
            && t.chain.events == s.chain.events
    decreases |steps|
  {
    StuckState(cap, s);
    if steps != [] {
      StuckStep(cap, s, steps[0]);
      StepAccounts(cap, s, steps[0]);
      StuckForever(cap, Next(cap, s, steps[0]), steps[1..]);
    }
  }

  /** Lost pulls never exceed the capacity, and once they equal it the system is stuck. */
  lemma LossesAbsorb(cap: nat, steps: seq<Step>, more: seq<Step>)
    ensures Run(cap, INIT, steps).lost <= cap
    ensures Run(cap, INIT, steps).lost == cap ==>
              var s, t := Run(cap, INIT, steps), Run(cap, Run(cap, INIT, steps), more);
              t.pulls == [] && t.chain.queue == s.chain.queue && |t.chain.queue| == cap && t.lost == cap
  {
    var s := Run(cap, INIT, steps);
    RunAccounts(cap, INIT, steps);
    if s.lost == cap {
      assert s.callbacks == [];
      StuckForever(cap, s, more);
      RunAccounts(cap, s, more);
    }
  }

  /** The schedule by which a system that is not stuck, has no pull in flight and awaits only
      silent callbacks issues one: a new page registers a robot and clicks. */
  function FreshPull(s: System, location: Coordinate): seq<Step> {
    [OpenPage, ClickRegister(|s.clients|, 0), AddLocally(|s.clients|), ClickCanvas(|s.clients|, 1, location),
     IncludeEnqueue(|s.enqueues|), Finalize(|s.callbacks|)]
  }

  lemma FreshPullIssues(cap: nat, s: System, location: Coordinate)
    requires |s.chain.queue| < cap
    ensures Run(cap, s, FreshPull(s, location)).pulls != []
  {
    var steps := FreshPull(s, location);
    var s1 := Next(cap, s, steps[0]);
    var s2 := Next(cap, s1, steps[1]);
    var s3 := Next(cap, s2, steps[2]);
    var s4 := Next(cap, s3, steps[3]);
    var s5 := Next(cap, s4, steps[4]);
    var s6 := Next(cap, s5, steps[5]);
    assert s3.clients[|s.clients|].robots == 1;
    assert s4.enqueues[|s.enqueues|].first == Some(0);
    assert s5.callbacks[|s.callbacks|].first == Some(0);
    assert |s6.pulls| == |s.pulls| + 1;
    SixSteps(cap, s, steps);
  }

  ghost predicate NeverPulls(cap: nat, s: System) {
    forall steps: seq<Step> :: Run(cap, s, steps).pulls == []
  }

  /** No continuation deposits another `CommandPulled`. */
  ghost predicate NeverDelivers(cap: nat, s: System) {
    forall steps: seq<Step> :: |Pulled(Run(cap, s, steps).chain.events)| == |Pulled(s.chain.events)|
  }

  /** Every robot id that a click captured, and hence every id pulled for, is 0. */
  ghost predicate ZeroIds(s: System) {
    && (forall t :: t in s.enqueues ==> t.first == None || t.first == Some(0))
    && (forall c :: c in s.callbacks ==> c.first == None || c.first == Some(0))
    && (forall p :: p in s.pulls ==> p.id == 0)
  }

  lemma StepZeroIds(cap: nat, s: System, step: Step)
    requires ZeroIds(s)
    ensures ZeroIds(Next(cap, s, step))
  {
    if step.Finalize? && Enabled(s, step) {
      assert s.callbacks[step.k] in s.callbacks;
    }
    if step.IncludeEnqueue? && Enabled(s, step) {
      assert s.enqueues[step.k] in s.enqueues;
    }
  }

  lemma {:induction false} RunZeroIds(cap: nat, s: System, steps: seq<Step>)
    requires ZeroIds(s)
    ensures ZeroIds(Run(cap, s, steps))
    decreases |steps|
  {
    if steps != [] {
      StepZeroIds(cap, s, steps[0]);
      RunZeroIds(cap, Next(cap, s, steps[0]), steps[1..]);
    }
  }

  lemma PulledAfter(cap: nat, s: Chain, call: Call)
    ensures var o := Exec(cap, s, call);
            && |Pulled(o.chain.events)|
               == |Pulled(s.events)| + (if call.PullNext? && o.result.Ok? then 1 else 0)
  {
    var t := Exec(cap, s, call).chain;
    if t.events != s.events {
      assert t.events[..|t.events| - 1] == s.events;
    }
  }

  lemma StepPulledGrows(cap: nat, s: System, step: Step)
    ensures |Pulled(s.chain.events)| <= |Pulled(Next(cap, s, step).chain.events)|
  {
    if Enabled(s, step) {
      match step
      case IncludeEnqueue(k) => PulledAfter(cap, s.chain, Call.EnqueueCommand(SIGNER, s.enqueues[k].command));
      case IncludePull(k) => PulledAfter(cap, s.chain, Call.PullNext(SIGNER, s.pulls[k].id));
      case _ =>
    }
  }

  lemma {:induction false} RunPulledGrows(cap: nat, s: System, steps: seq<Step>)
    ensures |Pulled(s.chain.events)| <= |Pulled(Run(cap, s, steps).chain.events)|
    decreases |steps|
  {
    if steps != [] {
      StepPulledGrows(cap, s, steps[0]);
      RunPulledGrows(cap, Next(cap, s, steps[0]), steps[1..]);
    }
  }

  /** A state that is not stuck can have a pull in flight. */
  lemma CanPull(cap: nat, s: System) returns (steps: seq<Step>)
    requires Accounted(cap, s) && !Stuck(cap, s)
    ensures Run(cap, s, steps).pulls != []
  {
    SilentBound(s.callbacks);
    if s.pulls != [] {
      steps := [];
    } else if exists c :: c in s.callbacks && c.first.Some? {
      var c :| c in s.callbacks && c.first.Some?;
      var k: nat :| k < |s.callbacks| && s.callbacks[k] == c;
      steps := [Finalize(k)];
      assert steps[1..] == [];
      assert Run(cap, s, steps) == Run(cap, Next(cap, s, Finalize(k)), []);
    } else {
      steps := FreshPull(s, Coordinate(0, 0));
      FreshPullIssues(cap, s, Coordinate(0, 0));
    }
  }

  /** The schedule by which a pull in flight takes a command: a new page registers robot 0 first. */
  function RegisterAndPull(s: System): seq<Step> {
    [OpenPage, ClickRegister(|s.clients|, 0), IncludeRegister(|s.registrations|), IncludePull(0)]
  }

  lemma PullDelivers(cap: nat, s: System)
    requires Accounted(cap, s) && ZeroIds(s) && s.pulls != []
    ensures |Pulled(Run(cap, s, RegisterAndPull(s)).chain.events)| == |Pulled(s.chain.events)| + 1
  {
    var steps := RegisterAndPull(s);
    var s1 := Next(cap, s, steps[0]);
    var s2 := Next(cap, s1, steps[1]);
    var s3 := Next(cap, s2, steps[2]);
    FourSteps(cap, s, steps);
    assert s.pulls[0] in s.pulls;
    assert s2.registrations[|s.registrations|] == 0;
    assert 0 in s3.chain.registered && s3.pulls == s.pulls && s3.chain.events == s.chain.events;
    PulledAfter(cap, s3.chain, Call.PullNext(SIGNER, 0));
  }

  /** Stuck is exactly dead: in any reachable state, no continuation has a pull in flight (now or
      ever), and no continuation delivers any command, if and only if the lost and the silent
      pulls add up to the capacity. */
  lemma DeadIffStuck(cap: nat, history: seq<Step>)
    ensures NeverPulls(cap, Run(cap, INIT, history)) <==> Stuck(cap, Run(cap, INIT, history))
    ensures NeverDelivers(cap, Run(cap, INIT, history)) <==> Stuck(cap, Run(cap, INIT, history))
  {
    var s := Run(cap, INIT, history);
    RunAccounts(cap, INIT, history);
    RunZeroIds(cap, INIT, history);
    if Stuck(cap, s) {
      forall steps: seq<Step>
        ensures Run(cap, s, steps).pulls == [] && Run(cap, s, steps).chain.events == s.chain.events
      {
        StuckForever(cap, s, steps);
      }
    } else {
      var steps := CanPull(cap, s);
      var t := Run(cap, s, steps);
      RunAccounts(cap, s, steps);
      RunZeroIds(cap, s, steps);
      PullDelivers(cap, t);
      RunPulledGrows(cap, s, steps);
      RunSteps(cap, s, steps, RegisterAndPull(t));
      assert |Pulled(Run(cap, s, steps + RegisterAndPull(t)).chain.events)| > |Pulled(s.chain.events)|;
    }
  }
}
