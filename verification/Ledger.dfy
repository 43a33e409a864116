/** Bookkeeping of the client protocol over whole runs: which click every command, callback, pull and
    registration comes from, and that inclusion, finality and execution touch exactly their own
    transaction. */
module Ledger {
  import opened Pallet
  import opened Protocol
  import opened Sequences

  // ---------- One inclusion ----------

  /** Including transaction k enqueues its own command, if there is room, and takes exactly this
      transaction out of flight; its click's robot goes into the callback. */
  lemma IncludeOwn(cap: nat, s: System, k: nat)
    requires k < |s.enqueues|
    ensures var t := Next(cap, s, IncludeEnqueue(k));
            && t.enqueues == s.enqueues[..k] + s.enqueues[k + 1..]
            && t.pulls == s.pulls && t.registrations == s.registrations && t.clients == s.clients
            && (|s.chain.queue| < cap ==>
                  && Enqueued(t.chain.events) == Enqueued(s.chain.events) + [s.enqueues[k].command]
                  && t.chain.queue == s.chain.queue + [s.enqueues[k].command]
                  && t.callbacks
                     == s.callbacks + [Callback(|Enqueued(s.chain.events)|, s.enqueues[k].first)])
            && (|s.chain.queue| >= cap ==> t.chain == s.chain && t.callbacks == s.callbacks)
  {
    HistoryGrows(s.chain.events, CommandEnqueued(s.enqueues[k].command));
  }

  // ---------- Commands ----------

  function Commands(txs: seq<EnqueueTx>): multiset<Command> {
    multiset(seq(|txs|, i requires 0 <= i < |txs| => txs[i].command))
  }

  /** The commands that were enqueued or still may be. */
  function Sent(s: System): multiset<Command> {
    multiset(Enqueued(s.chain.events)) + Commands(s.enqueues)
  }

  function ClickedBy(s: System, step: Step): multiset<Command> {
    if Enabled(s, step) && step.ClickCanvas? then multiset{GoToLocation(step.location)} else multiset{}
  }

  /** The command of a transaction that a step drops, or executes on a full queue. */
  function RefusedBy(cap: nat, s: System, step: Step): multiset<Command> {
    if Enabled(s, step) && (step.DropEnqueue? || (step.IncludeEnqueue? && |s.chain.queue| >= cap)) then
      multiset{s.enqueues[step.k].command}
    else
      multiset{}
  }

  function Clicked(cap: nat, s: System, steps: seq<Step>): multiset<Command>
    decreases |steps|
  {
    if steps == [] then multiset{}
    else ClickedBy(s, steps[0]) + Clicked(cap, Next(cap, s, steps[0]), steps[1..])
  }

  function Refused(cap: nat, s: System, steps: seq<Step>): multiset<Command>
    decreases |steps|
  {
    if steps == [] then multiset{}
    else RefusedBy(cap, s, steps[0]) + Refused(cap, Next(cap, s, steps[0]), steps[1..])
  }

  lemma CommandsRemove(txs: seq<EnqueueTx>, k: nat)
    requires k < |txs|
    ensures Commands(txs) == Commands(Remove(txs, k)) + multiset{txs[k].command}
  {
    var all := seq(|txs|, i requires 0 <= i < |txs| => txs[i].command);
    var rest := Remove(txs, k);
    assert Remove(all, k) == seq(|rest|, i requires 0 <= i < |rest| => rest[i].command);
    RemoveMultiset(all, k);
  }

  lemma CommandsAdd(txs: seq<EnqueueTx>, tx: EnqueueTx)
    ensures Commands(txs + [tx]) == Commands(txs) + multiset{tx.command}
  {
    var all := seq(|txs|, i requires 0 <= i < |txs| => txs[i].command);
    var more := txs + [tx];
    assert seq(|more|, i requires 0 <= i < |more| => more[i].command) == all + [tx.command];
  }

  lemma CommandsOfInclude(cap: nat, s: System, k: nat)
    requires k < |s.enqueues|
    ensures Sent(Next(cap, s, IncludeEnqueue(k))) + RefusedBy(cap, s, IncludeEnqueue(k)) == Sent(s)
  {
    IncludeOwn(cap, s, k);
    CommandsRemove(s.enqueues, k);
    assert Next(cap, s, IncludeEnqueue(k)).enqueues == Remove(s.enqueues, k);
  }

  lemma CommandsOfClick(cap: nat, s: System, step: Step)
    requires Enabled(s, step) && step.ClickCanvas?
    ensures Sent(Next(cap, s, step)) == Sent(s) + ClickedBy(s, step)
  {
    CommandsAdd(s.enqueues, EnqueueTx(GoToLocation(step.location), FirstRobot(step.seen)));
  }

  lemma CommandsOfDrop(cap: nat, s: System, step: Step)
    requires Enabled(s, step) && step.DropEnqueue?
    ensures Sent(Next(cap, s, step)) + RefusedBy(cap, s, step) == Sent(s)
  {
    CommandsRemove(s.enqueues, step.k);
  }

  lemma CommandsUntouched(cap: nat, s: System, step: Step)
    requires !step.ClickCanvas? && !step.DropEnqueue? && !step.IncludeEnqueue?
    ensures Next(cap, s, step).enqueues == s.enqueues
    ensures Enqueued(Next(cap, s, step).chain.events) == Enqueued(s.chain.events)
  {
    if Enabled(s, step) && step.IncludePull? {
      PullKeepsLog(s.chain, s.pulls[step.k].id);
    }
  }

  lemma StepCommands(cap: nat, s: System, step: Step)
    ensures Sent(Next(cap, s, step)) + RefusedBy(cap, s, step) == Sent(s) + ClickedBy(s, step)
  {
    if Enabled(s, step) {
      if step.IncludeEnqueue? {
        CommandsOfInclude(cap, s, step.k);
      } else if step.ClickCanvas? {
        CommandsOfClick(cap, s, step);
      } else if step.DropEnqueue? {
        CommandsOfDrop(cap, s, step);
      } else {
        CommandsUntouched(cap, s, step);
      }
    }
  }

  lemma PullKeepsLog(s: Chain, id: RobotId)
    ensures Enqueued(Pull(s, SIGNER, id).chain.events) == Enqueued(s.events)
  {
    var t := Pull(s, SIGNER, id).chain;
    if t.events != s.events {
      HistoryGrows(s.events, t.events[|s.events|]);
    }
  }

  lemma {:induction false} RunCommands(cap: nat, s: System, steps: seq<Step>)
    ensures Sent(Protocol.Run(cap, s, steps)) + Refused(cap, s, steps) == Sent(s) + Clicked(cap, s, steps)
    decreases |steps|
  {
    if steps != [] {
      var t, rest := Next(cap, s, steps[0]), steps[1..];
      StepCommands(cap, s, steps[0]);
      RunCommands(cap, t, rest);
      Balance(Sent(s), Sent(t), Sent(Protocol.Run(cap, t, rest)), RefusedBy(cap, s, steps[0]), Refused(cap, t, rest),
              ClickedBy(s, steps[0]), Clicked(cap, t, rest));
    }
  }

  /** No command is invented, doubled or forgotten: over every run the enqueued commands, those in
      flight and the refused ones are the clicked ones. */
  lemma CommandLedger(cap: nat, steps: seq<Step>)
    ensures var t := Protocol.Run(cap, INIT, steps);
            && multiset(Enqueued(t.chain.events)) + Commands(t.enqueues) + Refused(cap, INIT, steps)
               == Clicked(cap, INIT, steps)
  {
    RunCommands(cap, INIT, steps);
  }

  // ---------- What every piece of work descends from ----------

  /** A click: the command it sends, and the first robot of the list it captured. */
  datatype Click = Click(command: Command, first: Option<RobotId>)

  /** Tickets point at enqueued commands. */
  ghost predicate Ticketed(s: System) {
    && (forall i :: 0 <= i < |s.callbacks| ==> s.callbacks[i].ticket < |Enqueued(s.chain.events)|)
    && (forall i :: 0 <= i < |s.pulls| ==> s.pulls[i].ticket < |Enqueued(s.chain.events)|)
  }

  function OfEnqueues(txs: seq<EnqueueTx>): seq<Click> {
    seq(|txs|, i requires 0 <= i < |txs| => Click(txs[i].command, txs[i].first))
  }

  function OfCallbacks(log: seq<Command>, cs: seq<Callback>): seq<Click>
    requires forall i :: 0 <= i < |cs| ==> cs[i].ticket < |log|
  {
    seq(|cs|, i requires 0 <= i < |cs| => Click(log[cs[i].ticket], cs[i].first))
  }

  function OfPulls(log: seq<Command>, ps: seq<PullTx>): seq<Click>
    requires forall i :: 0 <= i < |ps| ==> ps[i].ticket < |log|
  {
    seq(|ps|, i requires 0 <= i < |ps| => Click(log[ps[i].ticket], Some(ps[i].id)))
  }

  /** Everything a click can still cause: its transaction, its callback, its pull. */
  ghost function Work(s: System): multiset<Click>
    requires Ticketed(s)
  {
    var log := Enqueued(s.chain.events);
    multiset(OfEnqueues(s.enqueues)) + multiset(OfCallbacks(log, s.callbacks)) + multiset(OfPulls(log, s.pulls))
  }

  /** What a step adds to the work: the click itself. */
  function Begun(s: System, step: Step): multiset<Click> {
    if Enabled(s, step) && step.ClickCanvas? then
      multiset{Click(GoToLocation(step.location), if step.seen == 0 then None else Some(0))}
    else
      multiset{}
  }

  /** The click whose work a step ends: dropped, refused, without a callback or a robot, or pulled. */
  ghost function Ended(cap: nat, s: System, step: Step): multiset<Click>
    requires Ticketed(s)
  {
    var log := Enqueued(s.chain.events);
    if !Enabled(s, step) then multiset{}
    else
      match step
      case IncludeEnqueue(k) =>
        if |s.chain.queue| < cap then multiset{} else multiset{OfEnqueues(s.enqueues)[k]}
      case DropEnqueue(k) => multiset{OfEnqueues(s.enqueues)[k]}
      case Finalize(k) =>
        if s.callbacks[k].first.Some? then multiset{} else multiset{OfCallbacks(log, s.callbacks)[k]}
      case LoseCallback(k) => multiset{OfCallbacks(log, s.callbacks)[k]}
      case IncludePull(k) => multiset{OfPulls(log, s.pulls)[k]}
      case DropPull(k) => multiset{OfPulls(log, s.pulls)[k]}
      case _ => multiset{}
  }

  lemma WithoutEnqueue(txs: seq<EnqueueTx>, k: nat)
    requires k < |txs|
    ensures multiset(OfEnqueues(txs)) == multiset(OfEnqueues(Remove(txs, k))) + multiset{OfEnqueues(txs)[k]}
  {
    assert Remove(OfEnqueues(txs), k) == OfEnqueues(Remove(txs, k));
    RemoveMultiset(OfEnqueues(txs), k);
  }

  lemma WithoutCallback(log: seq<Command>, cs: seq<Callback>, k: nat)
    requires k < |cs|
    requires forall i :: 0 <= i < |cs| ==> cs[i].ticket < |log|
    ensures forall i :: 0 <= i < |Remove(cs, k)| ==> Remove(cs, k)[i].ticket < |log|
    ensures multiset(OfCallbacks(log, cs))
         == multiset(OfCallbacks(log, Remove(cs, k))) + multiset{OfCallbacks(log, cs)[k]}
  {
    assert forall i :: 0 <= i < |Remove(cs, k)| ==> Remove(cs, k)[i] == cs[if i < k then i else i + 1];
    assert Remove(OfCallbacks(log, cs), k) == OfCallbacks(log, Remove(cs, k));
    RemoveMultiset(OfCallbacks(log, cs), k);
  }

  lemma WithoutPull(log: seq<Command>, ps: seq<PullTx>, k: nat)
    requires k < |ps|
    requires forall i :: 0 <= i < |ps| ==> ps[i].ticket < |log|
    ensures forall i :: 0 <= i < |Remove(ps, k)| ==> Remove(ps, k)[i].ticket < |log|
    ensures multiset(OfPulls(log, ps))
         == multiset(OfPulls(log, Remove(ps, k))) + multiset{OfPulls(log, ps)[k]}
  {
    assert forall i :: 0 <= i < |Remove(ps, k)| ==> Remove(ps, k)[i] == ps[if i < k then i else i + 1];
    assert Remove(OfPulls(log, ps), k) == OfPulls(log, Remove(ps, k));
    RemoveMultiset(OfPulls(log, ps), k);
  }

  /** Tickets keep their command while the log grows. */
  lemma LongerLog(log: seq<Command>, more: seq<Command>, s: System)
    requires Ticketed(s) && log == Enqueued(s.chain.events) && log <= more
    ensures OfCallbacks(more, s.callbacks) == OfCallbacks(log, s.callbacks)
    ensures OfPulls(more, s.pulls) == OfPulls(log, s.pulls)
  {
  }

  lemma WorkOfInclude(cap: nat, s: System, k: nat)
    requires Ticketed(s) && k < |s.enqueues|
    ensures Ticketed(Next(cap, s, IncludeEnqueue(k)))
    ensures Work(Next(cap, s, IncludeEnqueue(k))) + Ended(cap, s, IncludeEnqueue(k)) == Work(s)
  {
    var t := Next(cap, s, IncludeEnqueue(k));
    IncludeOwn(cap, s, k);
    WithoutEnqueue(s.enqueues, k);
    if |s.chain.queue| < cap {
      Included(s, t, k);
    }
  }

  /** The transaction becomes a callback with the same command and robot. */
  lemma Included(s: System, t: System, k: nat)
    requires Ticketed(s) && k < |s.enqueues|
    requires Enqueued(t.chain.events) == Enqueued(s.chain.events) + [s.enqueues[k].command]
    requires t.enqueues == Remove(s.enqueues, k) && t.pulls == s.pulls
    requires t.callbacks == s.callbacks + [Callback(|Enqueued(s.chain.events)|, s.enqueues[k].first)]
    ensures Ticketed(t) && Work(t) == Work(s)
  {
    var log, more, tx := Enqueued(s.chain.events), Enqueued(t.chain.events), s.enqueues[k];
    WithoutEnqueue(s.enqueues, k);
    LongerLog(log, more, s);
    assert OfCallbacks(more, t.callbacks) == OfCallbacks(log, s.callbacks) + [Click(tx.command, tx.first)];
    assert multiset(OfCallbacks(more, t.callbacks))
        == multiset(OfCallbacks(log, s.callbacks)) + multiset{Click(tx.command, tx.first)};
  }

  lemma WorkOfFinalize(cap: nat, s: System, k: nat)
    requires Ticketed(s) && k < |s.callbacks|
    ensures Ticketed(Next(cap, s, Finalize(k)))
    ensures Work(Next(cap, s, Finalize(k))) + Ended(cap, s, Finalize(k)) == Work(s)
  {
    var t, log := Next(cap, s, Finalize(k)), Enqueued(s.chain.events);
    WithoutCallback(log, s.callbacks, k);
    if s.callbacks[k].first.Some? {
      PullBegins(log, s.pulls, s.callbacks[k]);
    }
  }

  /** The pull that a callback submits, with the callback's ticket and robot. */
  lemma PullBegins(log: seq<Command>, ps: seq<PullTx>, c: Callback)
    requires c.ticket < |log| && c.first.Some?
    requires forall i :: 0 <= i < |ps| ==> ps[i].ticket < |log|
    ensures var more := ps + [PullTx(c.ticket, c.first.value)];
            && (forall i :: 0 <= i < |more| ==> more[i].ticket < |log|)
            && multiset(OfPulls(log, more)) == multiset(OfPulls(log, ps)) + multiset{Click(log[c.ticket], c.first)}
  {
    var more := ps + [PullTx(c.ticket, c.first.value)];
    assert OfPulls(log, more) == OfPulls(log, ps) + [Click(log[c.ticket], c.first)];
  }

  lemma WorkOfPull(cap: nat, s: System, k: nat, step: Step)
    requires Ticketed(s) && k < |s.pulls| && (step == IncludePull(k) || step == DropPull(k))
    ensures Ticketed(Next(cap, s, step))
    ensures Work(Next(cap, s, step)) + Ended(cap, s, step) == Work(s)
  {
    PullKeepsLog(s.chain, s.pulls[k].id);
    WithoutPull(Enqueued(s.chain.events), s.pulls, k);
  }

  lemma WorkOfLoss(cap: nat, s: System, step: Step)
    requires Ticketed(s) && Enabled(s, step) && (step.LoseCallback? || step.DropEnqueue?)
    ensures Ticketed(Next(cap, s, step)) && Begun(s, step) == multiset{}
    ensures Work(Next(cap, s, step)) + Ended(cap, s, step) == Work(s)
  {
    if step.LoseCallback? {
      WithoutCallback(Enqueued(s.chain.events), s.callbacks, step.k);
    } else {
      WithoutEnqueue(s.enqueues, step.k);
    }
  }

  lemma WorkOfClick(cap: nat, s: System, step: Step)
    requires Ticketed(s) && Enabled(s, step) && step.ClickCanvas?
    ensures Ticketed(Next(cap, s, step))
    ensures Work(Next(cap, s, step)) == Work(s) + Begun(s, step)
    ensures Ended(cap, s, step) == multiset{}
  {
    var tx := EnqueueTx(GoToLocation(step.location), FirstRobot(step.seen));
    assert OfEnqueues(s.enqueues + [tx]) == OfEnqueues(s.enqueues) + [Click(tx.command, tx.first)];
  }

  lemma WorkUntouched(cap: nat, s: System, step: Step)
    requires Ticketed(s)
    requires !Enabled(s, step) || step.OpenPage? || step.AddLocally? || step.ClickRegister?
             || step.IncludeRegister? || step.DropRegister?
    ensures Ticketed(Next(cap, s, step)) && Work(Next(cap, s, step)) == Work(s)
    ensures Ended(cap, s, step) == Begun(s, step) == multiset{}
  {
    var t := Next(cap, s, step);
    assert t.enqueues == s.enqueues && t.callbacks == s.callbacks && t.pulls == s.pulls;
    assert t.chain.events == s.chain.events;
  }

  /** One step moves the work of exactly one click along, begins one or ends one. */
  lemma StepWork(cap: nat, s: System, step: Step)
    requires Ticketed(s)
    ensures Ticketed(Next(cap, s, step))
    ensures Work(Next(cap, s, step)) + Ended(cap, s, step) == Work(s) + Begun(s, step)
  {
    hide *;
    if !Enabled(s, step) {
      WorkUntouched(cap, s, step);
    } else if step.ClickCanvas? {
      WorkOfClick(cap, s, step);
    } else if step.IncludeEnqueue? || step.Finalize? || step.IncludePull? || step.DropPull? {
      WorkOfMove(cap, s, step);
    } else if step.LoseCallback? || step.DropEnqueue? {
      WorkOfLoss(cap, s, step);
    } else {
      WorkUntouched(cap, s, step);
    }
  }

  lemma WorkOfMove(cap: nat, s: System, step: Step)
    requires Ticketed(s) && Enabled(s, step)
    requires step.IncludeEnqueue? || step.Finalize? || step.IncludePull? || step.DropPull?
    ensures Ticketed(Next(cap, s, step)) && Begun(s, step) == multiset{}
    ensures Work(Next(cap, s, step)) + Ended(cap, s, step) == Work(s)
  {
    if step.IncludeEnqueue? {
      WorkOfInclude(cap, s, step.k);
    } else if step.Finalize? {
      WorkOfFinalize(cap, s, step.k);
    } else {
      WorkOfPull(cap, s, step.k, step);
    }
  }

  function AllBegun(cap: nat, s: System, steps: seq<Step>): multiset<Click>
    decreases |steps|
  {
    if steps == [] then multiset{}
    else Begun(s, steps[0]) + AllBegun(cap, Next(cap, s, steps[0]), steps[1..])
  }

  lemma {:induction false} RunTicketed(cap: nat, s: System, steps: seq<Step>)
    requires Ticketed(s)
    ensures Ticketed(Protocol.Run(cap, s, steps))
    decreases |steps|
  {
    if steps != [] {
      StepWork(cap, s, steps[0]);
      RunTicketed(cap, Next(cap, s, steps[0]), steps[1..]);
    }
  }

  ghost function AllEnded(cap: nat, s: System, steps: seq<Step>): multiset<Click>
    requires Ticketed(s)
    decreases |steps|
  {
    if steps == [] then multiset{}
    else
      StepWork(cap, s, steps[0]);
      Ended(cap, s, steps[0]) + AllEnded(cap, Next(cap, s, steps[0]), steps[1..])
  }

  /** Over every run each click is accounted for exactly once: every transaction, callback and pull
      carries the command and the first robot of its own click, and nothing descends from no
      click. */
  lemma {:induction false} WorkLedger(cap: nat, s: System, steps: seq<Step>)
    requires Ticketed(s)
    ensures Ticketed(Protocol.Run(cap, s, steps))
    ensures Work(Protocol.Run(cap, s, steps)) + AllEnded(cap, s, steps) == Work(s) + AllBegun(cap, s, steps)
    decreases |steps|
  {
    if steps != [] {
      var t, rest := Next(cap, s, steps[0]), steps[1..];
      StepWork(cap, s, steps[0]);
      WorkLedger(cap, t, rest);
      Balance(Work(s), Work(t), Work(Protocol.Run(cap, t, rest)), Ended(cap, s, steps[0]), AllEnded(cap, t, rest),
              Begun(s, steps[0]), AllBegun(cap, t, rest));
    }
  }

  // ---------- Registrations ----------

  /** The ids that a step submits, executes or drops: a registration submits the list length its
      closure saw. */
  function SubmittedBy(s: System, step: Step): multiset<RobotId> {
    if Enabled(s, step) && step.ClickRegister? then multiset{step.seen} else multiset{}
  }

  function ExecutedBy(s: System, step: Step): multiset<RobotId> {
    if Enabled(s, step) && step.IncludeRegister? then multiset{s.registrations[step.k]} else multiset{}
  }

  function DroppedBy(s: System, step: Step): multiset<RobotId> {
    if Enabled(s, step) && step.DropRegister? then multiset{s.registrations[step.k]} else multiset{}
  }

  function Submitted(cap: nat, s: System, steps: seq<Step>): multiset<RobotId>
    decreases |steps|
  {
    if steps == [] then multiset{}
    else SubmittedBy(s, steps[0]) + Submitted(cap, Next(cap, s, steps[0]), steps[1..])
  }

  function Executed(cap: nat, s: System, steps: seq<Step>): multiset<RobotId>
    decreases |steps|
  {
    if steps == [] then multiset{}
    else ExecutedBy(s, steps[0]) + Executed(cap, Next(cap, s, steps[0]), steps[1..])
  }

  function Dropped(cap: nat, s: System, steps: seq<Step>): multiset<RobotId>
    decreases |steps|
  {
    if steps == [] then multiset{}
    else DroppedBy(s, steps[0]) + Dropped(cap, Next(cap, s, steps[0]), steps[1..])
  }

  lemma StepRegistrations(cap: nat, s: System, step: Step)
    ensures multiset(Next(cap, s, step).registrations) + (ExecutedBy(s, step) + DroppedBy(s, step))
         == multiset(s.registrations) + SubmittedBy(s, step)
  {
    if Enabled(s, step) && (step.IncludeRegister? || step.DropRegister?) {
      WhoLeaves(s, step);
      RegistrationLeaves(cap, s, step);
    } else {
      NobodyLeaves(s, step);
      RegistrationJoins(cap, s, step);
    }
  }

  lemma WhoLeaves(s: System, step: Step)
    requires Enabled(s, step) && (step.IncludeRegister? || step.DropRegister?)
    ensures ExecutedBy(s, step) + DroppedBy(s, step) == multiset{s.registrations[step.k]}
    ensures SubmittedBy(s, step) == multiset{}
  {
  }

  lemma NobodyLeaves(s: System, step: Step)
    requires !(Enabled(s, step) && (step.IncludeRegister? || step.DropRegister?))
    ensures ExecutedBy(s, step) + DroppedBy(s, step) == multiset{}
  {
  }

  lemma RegistrationLeaves(cap: nat, s: System, step: Step)
    requires Enabled(s, step) && (step.IncludeRegister? || step.DropRegister?)
    ensures multiset(Next(cap, s, step).registrations) + multiset{s.registrations[step.k]}
         == multiset(s.registrations)
  {
    RegistrationsAfter(cap, s, step);
    assert Next(cap, s, step).registrations == Remove(s.registrations, step.k);
    RemoveMultiset(s.registrations, step.k);
  }

  lemma RegistrationJoins(cap: nat, s: System, step: Step)
    requires !(Enabled(s, step) && (step.IncludeRegister? || step.DropRegister?))
    ensures multiset(Next(cap, s, step).registrations) == multiset(s.registrations) + SubmittedBy(s, step)
  {
    RegistrationsAfter(cap, s, step);
  }

  /** A registration leaves the network alone, and as itself. */
  lemma RegistrationsAfter(cap: nat, s: System, step: Step)
    ensures Next(cap, s, step).registrations
         == if !Enabled(s, step) then s.registrations
            else if step.ClickRegister? then s.registrations + [step.seen]
            else if step.IncludeRegister? || step.DropRegister? then
              s.registrations[..step.k] + s.registrations[step.k + 1..]
            else s.registrations
  {
  }

  lemma StepRegistered(cap: nat, s: System, step: Step, id: RobotId)
    ensures id in Next(cap, s, step).chain.registered <==> id in s.chain.registered || id in ExecutedBy(s, step)
  {
  }

  /** Over every run the registrations in flight, executed and dropped are the submitted ones. */
  lemma {:induction false} RegistrationLedger(cap: nat, s: System, steps: seq<Step>)
    ensures multiset(Protocol.Run(cap, s, steps).registrations) + (Executed(cap, s, steps) + Dropped(cap, s, steps))
         == multiset(s.registrations) + Submitted(cap, s, steps)
    decreases |steps|
  {
    if steps != [] {
      var step, t, rest := steps[0], Next(cap, s, steps[0]), steps[1..];
      StepRegistrations(cap, s, step);
      RegistrationLedger(cap, t, rest);
      Balance(multiset(s.registrations), multiset(t.registrations),
              multiset(Protocol.Run(cap, t, rest).registrations),
              ExecutedBy(s, step) + DroppedBy(s, step), Executed(cap, t, rest) + Dropped(cap, t, rest),
              SubmittedBy(s, step), Submitted(cap, t, rest));
    }
  }

  /** The chain has registered exactly the ids of the executed registrations. */
  lemma {:induction false} RegisteredExactly(cap: nat, s: System, steps: seq<Step>, id: RobotId)
    ensures id in Protocol.Run(cap, s, steps).chain.registered
       <==> id in s.chain.registered || id in Executed(cap, s, steps)
    decreases |steps|
  {
    if steps != [] {
      StepRegistered(cap, s, steps[0], id);
      RegisteredExactly(cap, Next(cap, s, steps[0]), steps[1..], id);
    }
  }

  /** The registrations submitted by one page, and those that reached its local list. */
  function ClicksOf(cap: nat, s: System, steps: seq<Step>, c: nat): nat
    decreases |steps|
  {
    if steps == [] then 0
    else
      (if Enabled(s, steps[0]) && steps[0].ClickRegister? && steps[0].client == c then 1 else 0)
      + ClicksOf(cap, Next(cap, s, steps[0]), steps[1..], c)
  }

  /** The local list of a page grows by its own registrations only, whatever the chain does. */
  lemma {:induction false} LocalList(cap: nat, s: System, steps: seq<Step>, c: nat)
    requires c < |s.clients|
    ensures var t := Protocol.Run(cap, s, steps);
            && c < |t.clients| && t.clients[c].robots >= s.clients[c].robots
            && t.clients[c].robots + t.clients[c].pendingAdds
               == s.clients[c].robots + s.clients[c].pendingAdds + ClicksOf(cap, s, steps, c)
    decreases |steps|
  {
    if steps != [] {
      LocalList(cap, Next(cap, s, steps[0]), steps[1..], c);
    }
  }

  // ---------- A page that registers its robots one by one ----------

  function RegisterOne(n: nat): seq<Step> {
    [ClickRegister(0, n), AddLocally(0), IncludeRegister(0)]
  }

  function RegisterMany(n: nat): seq<Step> {
    if n == 0 then [OpenPage] else RegisterMany(n - 1) + RegisterOne(n - 1)
  }

  function Ids(n: nat): (ids: set<RobotId>)
    requires n <= 0x1_0000_0000
    ensures forall id: RobotId :: id in ids <==> id < n
  {
    if n == 0 then {} else Ids(n - 1) + {n - 1}
  }

  /** One page with n robots, all on the chain, and nothing in flight. */
  function Registered(n: nat): System
    requires n <= 0x1_0000_0000
  {
    System(Chain(Ids(n), [], []), [Client(n, 0)], [], [], [], [], 0)
  }

  /** Registered one after the other, n robots get the ids 0 to n - 1 on the chain and on the page. */
  lemma {:induction false} RegisteredInOrder(cap: nat, n: nat)
    requires n <= 0x1_0000_0000
    ensures Protocol.Run(cap, INIT, RegisterMany(n)) == Registered(n)
  {
    if n == 0 {
      assert [OpenPage][1..] == [];
      assert Protocol.Run(cap, INIT, [OpenPage]) == Protocol.Run(cap, Next(cap, INIT, OpenPage), []);
    } else {
      var s := Protocol.Run(cap, INIT, RegisterMany(n - 1));
      RegisteredInOrder(cap, n - 1);
      RunSteps(cap, INIT, RegisterMany(n - 1), RegisterOne(n - 1));
      NextRobot(cap, s, n - 1);
    }
  }

  lemma NextRobot(cap: nat, s: System, n: nat)
    requires n < 0x1_0000_0000
    requires s == Registered(n)
    ensures Protocol.Run(cap, s, RegisterOne(n)) == Registered(n + 1)
  {
    var steps := RegisterOne(n);
    var s1 := Next(cap, s, steps[0]);
    var s2 := Next(cap, s1, steps[1]);
    var s3 := Next(cap, s2, steps[2]);
    TwoSteps(cap, s, steps);
    assert steps[2..] == [steps[2]] && steps[2..][1..] == [];
    assert Protocol.Run(cap, s2, steps[2..]) == Protocol.Run(cap, s3, []);
    assert s1.registrations == [n];
  }
}
