/**
 Whole runs of one slot: the epoch and isolation guarantees between any two moments of a run,
 and the mailbox in front of the slot seen as an atomic object.
 */
module SlotRuns {
  import opened Slots
  import opened SlotSteps

  // ---------- Histories of events ----------

  /** Every event of the history was possible when it happened, starting from a fresh slot. */
  ghost predicate Legal(slot: nat, history: seq<Event>)
    decreases |history|, 0
  {
    |history| > 0 ==>
      var before := history[..|history| - 1];
      Legal(slot, before) && Possible(State(slot, before), history[|history| - 1])
  }

  /** The slot after a history. */
  ghost function State(slot: nat, history: seq<Event>): Runtime
    requires Legal(slot, history)
    decreases |history|, 1
  {
    if |history| == 0 then InitialRuntime(slot)
    else After(State(slot, history[..|history| - 1]), history[|history| - 1])
  }

  lemma {:induction false} LegalPrefix(slot: nat, history: seq<Event>, i: nat)
    requires Legal(slot, history) && i <= |history|
    ensures Legal(slot, history[..i])
    decreases |history|
  {
    if i == |history| {
      assert history[..i] == history;
    } else {
      var before := history[..|history| - 1];
      LegalPrefix(slot, before, i);
      assert before[..i] == history[..i];
    }
  }

  lemma LegalExtend(slot: nat, history: seq<Event>, event: Event)
    requires Legal(slot, history) && Possible(State(slot, history), event)
    ensures Legal(slot, history + [event])
    ensures State(slot, history + [event]) == After(State(slot, history), event)
  {
    assert (history + [event])[..|history|] == history;
  }

  /** Every state of every run is well formed and reports the slot it was started for. */
  lemma {:induction false} RunsAreWellFormed(slot: nat, history: seq<Event>)
    requires Legal(slot, history)
    ensures WellFormed(State(slot, history)) && State(slot, history).status.slot == slot
    decreases |history|
  {
    if |history| > 0 {
      RunsAreWellFormed(slot, history[..|history| - 1]);
    }
  }

  /** Between any two moments of a run a slot evolves as its epochs allow. */
  lemma {:induction false} RunsEvolve(slot: nat, history: seq<Event>, i: nat)
    requires Legal(slot, history) && i <= |history|
    ensures Legal(slot, history[..i]) && Evolved(State(slot, history[..i]), State(slot, history))
    decreases |history|
  {
    LegalPrefix(slot, history, i);
    if i == |history| {
      assert history[..i] == history;
    } else {
      var before := history[..|history| - 1];
      assert before[..i] == history[..i];
      RunsEvolve(slot, before, i);
      RunsAreWellFormed(slot, history[..i]);
      RunsAreWellFormed(slot, before);
      RunsAreWellFormed(slot, history);
      EvolvedStep(State(slot, before), history[|history| - 1]);
      EvolvedTransitive(State(slot, history[..i]), State(slot, before), State(slot, history));
    }
  }

  /**
   Isolation: at any two moments at which the slot is reserved and has a process, it is the
   same process exactly when it is the same reservation; then the identity is the same too.
   */
  lemma OneChildPerReservation(slot: nat, history: seq<Event>, i: nat, j: nat)
    requires Legal(slot, history) && i <= |history| && j <= |history|
    requires Legal(slot, history[..i]) && Legal(slot, history[..j])
    requires State(slot, history[..i]).status.name.Some? && State(slot, history[..i]).child.Some?
    requires State(slot, history[..j]).status.name.Some? && State(slot, history[..j]).child.Some?
    ensures var a, b := State(slot, history[..i]), State(slot, history[..j]);
            && (a.child == b.child <==> a.status.generation == b.status.generation)
            && (a.child == b.child ==> a.status.name == b.status.name && a.status.mac == b.status.mac && a.status.tap == b.status.tap)
  {
    var lo, hi := if i <= j then i else j, if i <= j then j else i;
    LegalPrefix(slot, history, hi);
    assert history[..hi][..lo] == history[..lo];
    RunsEvolve(slot, history[..hi], lo);
    RunsAreWellFormed(slot, history[..i]);
    RunsAreWellFormed(slot, history[..j]);
  }

  /** Generations are epochs: within one, the state only advances and the start time is set once. */
  lemma GenerationIsAnEpoch(slot: nat, history: seq<Event>, i: nat, j: nat)
    requires Legal(slot, history) && i <= j <= |history|
    ensures Legal(slot, history[..i]) && Legal(slot, history[..j])
    ensures var a, b := State(slot, history[..i]).status, State(slot, history[..j]).status;
            && a.generation <= b.generation
            && (a.generation == b.generation ==>
                  && Rank(a.state) <= Rank(b.state)
                  && a.name == b.name && a.mac == b.mac && a.tap == b.tap
                  && (a.startedAt.Some? && b.startedAt.Some? ==> a.startedAt == b.startedAt))
  {
    LegalPrefix(slot, history, j);
    assert history[..j][..i] == history[..i];
    RunsEvolve(slot, history[..j], i);
  }

  /** A slot that failed holds no child, so an exit can only be observed in another state. */
  lemma FailedSlotsHaveNoChild(slot: nat, history: seq<Event>)
    requires Legal(slot, history) && Possible(State(slot, history), ChildExited)
    ensures !State(slot, history).status.state.Failed?
    ensures State(slot, history).status.lastError.None? && State(slot, history).status.pid.Some?
  {
    RunsAreWellFormed(slot, history);
  }

  /**
   The mark of a boot does not look for a process. An accepted mark yields a VM that can be
   reported exactly when the slot held a process when the mark was handled.
   */
  lemma AcceptedMarkConvertsIffProcess(slot: nat, history: seq<Event>, startedAt: string, tapError: Option<string>)
    requires Legal(slot, history) && State(slot, history).status.state.Booting?
    ensures var status := Handled(State(slot, history), MarkVmBooted(startedAt), tapError).status;
            && ReplyTo(State(slot, history), MarkVmBooted(startedAt), tapError) == Ok(status)
            && (TryIntoRuntime(status).Ok? <==> State(slot, history).child.Some?)
            && (RuntimeFromSlotStatus(status).Some? <==> State(slot, history).child.Some?)
            && (State(slot, history).child.None? ==> TryIntoRuntime(status) == Err(Backend("missing pid")))
  {
    RunsAreWellFormed(slot, history);
  }

  lemma Reach(slot: nat, history: seq<Event>, event: Event) returns (longer: seq<Event>)
    requires Legal(slot, history) && Possible(State(slot, history), event)
    ensures Legal(slot, longer) && State(slot, longer) == After(State(slot, history), event)
  {
    LegalExtend(slot, history, event);
    longer := history + [event];
  }

  /** A run that ends Occupied without a process: a released slot is reserved and marked before the worker spawns again. */
  lemma OccupiedWithoutProcess() returns (history: seq<Event>)
    ensures Legal(0, history) && State(0, history).status.state.Occupied?
    ensures State(0, history).status.pid.None? && State(0, history).child.None?
  {
    history := Reach(0, [], SpawnOk(100));
    history := Reach(0, history, Handle(ReserveVm("a", "mac", "tap0"), None));
    history := Reach(0, history, Handle(MarkVmBooted("now"), None));
    history := Reach(0, history, Handle(ReleaseVm, None));
    history := Reach(0, history, Handle(ReserveVm("b", "mac", "tap0"), None));
    history := Reach(0, history, Handle(MarkVmBooted("now"), None));
  }

  // ---------- The slot as an atomic object ----------

  /** The commands of a history, in the order they took effect. */
  function CommandsOf(history: seq<Event>): seq<Command> {
    if |history| == 0 then []
    else
      var last := history[|history| - 1];
      CommandsOf(history[..|history| - 1]) + (if last.Handle? then [last.command] else [])
  }

  /** The replies an object gives that performs the events of the history one at a time. */
  ghost function RepliesOf(slot: nat, history: seq<Event>): seq<Reply>
    requires Legal(slot, history)
    decreases |history|
  {
    if |history| == 0 then []
    else
      var before, last := history[..|history| - 1], history[|history| - 1];
      RepliesOf(slot, before) +
      (if last.Handle? then [ReplyTo(State(slot, before), last.command, last.tapError)] else [])
  }

  // ---------- The worker behind its mailbox ----------

  datatype Sent = Sent(ticket: nat, command: Command)

  datatype Answered = Answered(ticket: nat, reply: Reply)

  /** A running worker with its mailbox, the replies it gave and the commands it dropped on exit. */
  datatype Actor = Actor(
    rt: Runtime,
    queue: seq<Sent>,
    answered: seq<Answered>,
    dropped: seq<Sent>,
    sent: nat,
    running: bool)

  datatype ActorStep =
    | Send(command: Command)
    | Take(tapError: Option<string>)
    | Spontaneous(event: Event)
    | Exit

  function InitialActor(slot: nat): Actor {
    Actor(InitialRuntime(slot), [], [], [], 0, true)
  }

  predicate CanDo(actor: Actor, step: ActorStep) {
    match step
    case Send(_) => actor.running ==> |actor.queue| < CHANNEL_CAPACITY
    case Take(_) => actor.running && |actor.queue| > 0
    case Spontaneous(event) => actor.running && !event.Handle? && Possible(actor.rt, event)
    case Exit => actor.running
  }

  function Do(actor: Actor, step: ActorStep): Actor
    requires CanDo(actor, step)
  {
    match step
    case Send(command) =>
      if actor.running then actor.(queue := actor.queue + [Sent(actor.sent, command)], sent := actor.sent + 1)
      else actor  // the channel is closed: the sender is told so
    case Take(tapError) =>
      var head := actor.queue[0];
      actor.(rt := Handled(actor.rt, head.command, tapError),
             queue := actor.queue[1..],
             answered := actor.answered + [Answered(head.ticket, ReplyTo(actor.rt, head.command, tapError))])
    case Spontaneous(event) => actor.(rt := After(actor.rt, event))
    case Exit => actor.(running := false, queue := [], dropped := actor.queue)
  }

  ghost predicate ActorRun(slot: nat, steps: seq<ActorStep>)
    decreases |steps|, 0
  {
    |steps| > 0 ==>
      var before := steps[..|steps| - 1];
      ActorRun(slot, before) && CanDo(ActorAfter(slot, before), steps[|steps| - 1])
  }

  ghost function ActorAfter(slot: nat, steps: seq<ActorStep>): Actor
    requires ActorRun(slot, steps)
    decreases |steps|, 1
  {
    if |steps| == 0 then InitialActor(slot)
    else Do(ActorAfter(slot, steps[..|steps| - 1]), steps[|steps| - 1])
  }

  function Extended(accepted: seq<Command>, open: bool, step: ActorStep): seq<Command> {
    if step.Send? && open then accepted + [step.command] else accepted
  }

  /** The commands the channel accepted: everything sent before the worker left. */
  function Accepted(steps: seq<ActorStep>): seq<Command> {
    if |steps| == 0 then []
    else
      var before := steps[..|steps| - 1];
      Extended(Accepted(before), Exit !in before, steps[|steps| - 1])
  }

  function Performed(history: seq<Event>, actor: Actor, step: ActorStep): seq<Event>
    requires CanDo(actor, step)
  {
    match step
    case Take(tapError) => history + [Handle(actor.queue[0].command, tapError)]
    case Spontaneous(event) => history + [event]
    case _ => history
  }

  /** The history of the atomic object: what the worker did, without the sending. */
  ghost function Linearized(slot: nat, steps: seq<ActorStep>): seq<Event>
    requires ActorRun(slot, steps)
    decreases |steps|
  {
    if |steps| == 0 then []
    else
      var before := steps[..|steps| - 1];
      Performed(Linearized(slot, before), ActorAfter(slot, before), steps[|steps| - 1])
  }

  /** `waiting` holds, in order, exactly the accepted commands from number `first` on. */
  ghost predicate Holds(waiting: seq<Sent>, first: nat, accepted: seq<Command>) {
    && first + |waiting| == |accepted|
    && forall k :: 0 <= k < |waiting| ==> waiting[k] == Sent(first + k, accepted[first + k])
  }

  /** The worker agrees with an atomic slot object that has performed `history`. */
  ghost predicate Refines(actor: Actor, slot: nat, history: seq<Event>, accepted: seq<Command>)
  {
    && Legal(slot, history)
    && actor.rt == State(slot, history)
    && |actor.answered| <= |accepted| == actor.sent
    && CommandsOf(history) == accepted[..|actor.answered|]
    && (var replies := RepliesOf(slot, history);
        && |replies| == |actor.answered|
        && (forall k :: 0 <= k < |replies| ==> actor.answered[k] == Answered(k, replies[k])))
    && |actor.queue| <= CHANNEL_CAPACITY
    && (if actor.running then actor.dropped == [] else actor.queue == [])
    && Holds(if actor.running then actor.queue else actor.dropped, |actor.answered|, accepted)
  }

  lemma HandlingExtends(slot: nat, history: seq<Event>, event: Event)
    requires Legal(slot, history) && Legal(slot, history + [event]) && event.Handle?
    ensures CommandsOf(history + [event]) == CommandsOf(history) + [event.command]
    ensures RepliesOf(slot, history + [event])
         == RepliesOf(slot, history) + [ReplyTo(State(slot, history), event.command, event.tapError)]
  {
    var longer := history + [event];
    assert longer[..|longer| - 1] == history;
  }

  lemma SpontaneousExtends(slot: nat, history: seq<Event>, event: Event)
    requires Legal(slot, history) && Legal(slot, history + [event]) && !event.Handle?
    ensures CommandsOf(history + [event]) == CommandsOf(history)
    ensures RepliesOf(slot, history + [event]) == RepliesOf(slot, history)
  {
    var longer := history + [event];
    assert longer[..|longer| - 1] == history;
    assert CommandsOf(longer) == CommandsOf(history) + [];
    assert RepliesOf(slot, longer) == RepliesOf(slot, history) + [];
  }

  lemma HoldsRest(waiting: seq<Sent>, first: nat, accepted: seq<Command>)
    requires Holds(waiting, first, accepted) && |waiting| > 0
    ensures Holds(waiting[1..], first + 1, accepted)
  {
    forall k | 0 <= k < |waiting| - 1 ensures waiting[1..][k] == Sent(first + 1 + k, accepted[first + 1 + k]) {
      assert waiting[1..][k] == waiting[k + 1];
    }
  }

  lemma TakeRefines(actor: Actor, slot: nat, history: seq<Event>, accepted: seq<Command>, tapError: Option<string>)
    requires Refines(actor, slot, history, accepted) && CanDo(actor, Take(tapError))
    ensures Refines(Do(actor, Take(tapError)), slot, history + [Handle(actor.queue[0].command, tapError)], accepted)
  {
    var n := |actor.answered|;
    var event := Handle(actor.queue[0].command, tapError);
    LegalExtend(slot, history, event);
    HandlingExtends(slot, history, event);
    assert actor.queue[0] == Sent(n, accepted[n]);
    assert accepted[..n + 1] == accepted[..n] + [accepted[n]];
    HoldsRest(actor.queue, n, accepted);
  }

  lemma SpontaneousRefines(actor: Actor, slot: nat, history: seq<Event>, accepted: seq<Command>, event: Event)
    requires Refines(actor, slot, history, accepted) && CanDo(actor, Spontaneous(event))
    ensures Refines(Do(actor, Spontaneous(event)), slot, history + [event], accepted)
  {
    LegalExtend(slot, history, event);
    SpontaneousExtends(slot, history, event);
  }

  lemma StepRefines(actor: Actor, slot: nat, history: seq<Event>, accepted: seq<Command>, step: ActorStep)
    requires Refines(actor, slot, history, accepted) && CanDo(actor, step)
    ensures Refines(Do(actor, step), slot, Performed(history, actor, step), Extended(accepted, actor.running, step))
    ensures Do(actor, step).running == (actor.running && step != Exit)
  {
    match step {
      case Send(_) =>
      case Take(tapError) => TakeRefines(actor, slot, history, accepted, tapError);
      case Spontaneous(event) => SpontaneousRefines(actor, slot, history, accepted, event);
      case Exit =>
    }
  }

  lemma {:induction false} RunningUntilExit(slot: nat, steps: seq<ActorStep>)
    requires ActorRun(slot, steps)
    ensures ActorAfter(slot, steps).running <==> Exit !in steps
    decreases |steps|
  {
    if |steps| > 0 {
      var before := steps[..|steps| - 1];
      RunningUntilExit(slot, before);
      assert steps == before + [steps[|steps| - 1]];
    }
  }

  /**
   Refinement: behind its mailbox the worker behaves like an atomic slot object. For every
   interleaving of senders and worker there is a legal history of that object with the same
   final state; the commands that took effect are exactly the first ones accepted, each once
   and in send order; reply k is the one the object gives to command k; and what has no reply is
   still queued, or was dropped by a worker that left.
   */
  lemma {:induction false} MailboxRefinesAtomicSlot(slot: nat, steps: seq<ActorStep>)
    requires ActorRun(slot, steps)
    ensures Refines(ActorAfter(slot, steps), slot, Linearized(slot, steps), Accepted(steps))
    decreases |steps|
  {
    if |steps| > 0 {
      var before, last := steps[..|steps| - 1], steps[|steps| - 1];
      MailboxRefinesAtomicSlot(slot, before);
      RunningUntilExit(slot, before);
      StepRefines(ActorAfter(slot, before), slot, Linearized(slot, before), Accepted(before), last);
    }
  }
}
