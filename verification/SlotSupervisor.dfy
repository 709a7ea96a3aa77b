/**
 The slot worker as it runs: a record updated in place, a child process, and the loop that
 spawns, drains commands, polls for an exit and waits. Every method is proved against the
 transition system of SlotSteps: the object is always the state of a legal history of events.
 */
module SlotSupervisor {
  import opened Slots
  import opened SlotSteps
  import opened SlotRuns

  /** The outcome of starting the program. */
  datatype SpawnResult = Started(pid: nat) | NotStarted(error: string)

  /** The outcome of polling a child. */
  datatype PollResult = Exited | StillRunning | PollError(error: string)

  /** What ends the wait at the bottom of the loop. */
  datatype Wake =
    | ShutdownChanged(value: bool)
    | ShutdownSenderGone
    | CommandReady(tapError: Option<string>)
    | SendersGone
    | TimerFired

  /**
   What the surroundings do during one iteration of the loop: `arrivals[i]` are the commands
   delivered before the i-th attempt to receive, `late` those delivered before the wait.
   */
  datatype Iteration = Iteration(
    shutdownSeen: bool,
    spawn: SpawnResult,
    arrivals: seq<seq<Command>>,
    taps: seq<Option<string>>,
    poll: PollResult,
    late: seq<Command>,
    wake: Wake)

  datatype Verdict = Continue | LeftOnShutdown | LeftOnClosedChannel

  function Flatten(parts: seq<seq<Command>>): seq<Command> {
    if |parts| == 0 then [] else Flatten(parts[..|parts| - 1]) + parts[|parts| - 1]
  }

  /** What had been delivered when the queue was looked at for the n-th time. */
  function Delivered(arrivals: seq<seq<Command>>, attempts: nat): seq<Command> {
    if attempts <= |arrivals| then Flatten(arrivals[..attempts]) else Flatten(arrivals)
  }

  lemma DeliveredNext(arrivals: seq<seq<Command>>, attempts: nat)
    ensures Delivered(arrivals, attempts + 1)
         == Delivered(arrivals, attempts) + (if attempts < |arrivals| then arrivals[attempts] else [])
    ensures Delivered(arrivals, 0) == []
  {
    if attempts < |arrivals| {
      assert arrivals[..attempts + 1][..attempts] == arrivals[..attempts];
    } else {
      assert arrivals[..|arrivals|] == arrivals;
      assert Flatten(arrivals) + [] == Flatten(arrivals);
    }
  }

  // ---------- What one turn of the loop amounts to ----------

  function SpawnPart(rt: Runtime, spawn: SpawnResult): seq<Event> {
    if rt.child.Some? || !ShouldSpawn(rt.status.state) then []
    else match spawn
      case Started(pid) => [SpawnOk(pid)]
      case NotStarted(error) => [SpawnFailed(error)]
  }

  /** The outcome of creating a tap device for the n-th command handled. */
  function TapAt(taps: seq<Option<string>>, n: nat): Option<string> {
    if n < |taps| then taps[n] else None
  }

  function HandlePart(commands: seq<Command>, taps: seq<Option<string>>): seq<Event> {
    if |commands| == 0 then []
    else
      var n := |commands| - 1;
      HandlePart(commands[..n], taps) + [Handle(commands[n], TapAt(taps, n))]
  }

  lemma {:induction false} HandlePartHandles(commands: seq<Command>, taps: seq<Option<string>>)
    ensures forall k :: 0 <= k < |HandlePart(commands, taps)| ==> HandlePart(commands, taps)[k].Handle?
  {
    if |commands| > 0 {
      HandlePartHandles(commands[..|commands| - 1], taps);
    }
  }

  function PollPart(rt: Runtime, poll: PollResult): seq<Event> {
    if rt.child.None? then []
    else match poll
      case Exited => [ChildExited]
      case StillRunning => []
      case PollError(error) => [PollFailed(error)]
  }

  /** From position `n` on, an attempt to spawn comes first and the poll of a child last. */
  ghost predicate InOrder(n: nat, history: seq<Event>) {
    && n <= |history|
    && (forall k :: n <= k < |history| && (history[k].SpawnOk? || history[k].SpawnFailed?) ==> k == n)
    && (forall k :: n <= k < |history| && (history[k].ChildExited? || history[k].PollFailed?) ==> k == |history| - 1)
  }

  lemma WorkIsInOrder(history: seq<Event>, before: Runtime, env: Iteration, commands: seq<Command>, handled: Runtime)
    ensures InOrder(|history|, history + SpawnPart(before, env.spawn) + HandlePart(commands, env.taps) + PollPart(handled, env.poll))
  {
    HandlePartHandles(commands, env.taps);
    var first, middle, last := SpawnPart(before, env.spawn), HandlePart(commands, env.taps), PollPart(handled, env.poll);
    assert |first| <= 1 && |last| <= 1;
    hide HandlePart, SpawnPart, PollPart;
    ThreeParts(history, first, middle, last);
  }

  lemma ThreeParts(history: seq<Event>, first: seq<Event>, middle: seq<Event>, last: seq<Event>)
    requires |first| <= 1 && |last| <= 1 && forall k :: 0 <= k < |middle| ==> middle[k].Handle?
    requires forall k :: 0 <= k < |first| ==> first[k].SpawnOk? || first[k].SpawnFailed?
    requires forall k :: 0 <= k < |last| ==> last[k].ChildExited? || last[k].PollFailed?
    ensures InOrder(|history|, history + first + middle + last)
  {
  }

  function WakePart(late: seq<Command>, wake: Wake): seq<Event> {
    if |late| == 0 then []
    else match wake
      case CommandReady(tapError) => [Handle(late[0], tapError)]
      case SendersGone => [Handle(late[0], None)]
      case _ => []
  }

  /** Nothing of a VM is left in the slot: it is empty, in the next generation, and its child is detached. */
  ghost predicate Emptied(before: Runtime, after: Runtime) {
    && after.child.None? && after.spawned == before.spawned
    && after.status == SlotStatus(before.status.slot, before.status.generation + 1, Empty, None, None, None, None, None, None)
  }

  /**
   What a command makes of the record, and its reply: accepted only in the state it is meant for, it
   replies the new status; refused, it changes nothing and names the state and the action.
   */
  ghost predicate Served(before: Runtime, command: Command, tapError: Option<string>, after: Runtime, reply: Reply) {
    var b, a := before.status, after.status;
    && (reply.Ok? ==> reply.value == a)
    && (reply.Err? ==> after == before)
    && match command
       case GetVmStatus => reply.Ok? && after == before
       case ReserveVm(name, mac, tap) =>
         if b.state == Empty && tapError.None? then
           && reply.Ok? && after.child == before.child && after.spawned == before.spawned
           && a == SlotStatus(b.slot, b.generation + 1, Booting, Some(name), Some(mac), Some(tap), b.pid, None, None)
         else if b.state == Empty then reply == Err(Backend(tapError.value))
         else reply == Err(InvalidTransition(b.slot, b.state, "claim"))
       case MarkVmBooted(startedAt) =>
         if b.state == Booting then
           && reply.Ok? && after.child == before.child && after.spawned == before.spawned
           && a == b.(state := Occupied, startedAt := Some(startedAt))
         else reply == Err(InvalidTransition(b.slot, b.state, "mark_booted"))
       case ReleaseVm =>
         if b.state == Occupied then reply.Ok? && Emptied(before, after)
         else reply == Err(InvalidTransition(b.slot, b.state, "release"))
       case ResetVm => reply.Ok? && Emptied(before, after)
  }

  /** What an attempt to start a child makes of the record: none if there is a child, or if the slot failed. */
  ghost predicate Spawned(before: Runtime, spawn: SpawnResult, after: Runtime) {
    if before.child.Some? || before.status.state.Failed? then after == before
    else match spawn
      case Started(pid) =>
        && after.child == Some(Child(before.spawned, pid)) && after.spawned == before.spawned + 1
        && after.status == before.status.(pid := Some(pid), lastError := None)
      case NotStarted(error) =>
        && after.child.None? && after.spawned == before.spawned
        && after.status == before.status.(pid := None, state := Failed, lastError := Some(error))
  }

  /**
   What the outcome of a poll makes of the record. An exit leaves the slot empty and without a
   child, in the next generation if it carried a VM; a failed poll leaves it failed with the error,
   in its generation and under its name.
   */
  ghost predicate Polled(before: Runtime, poll: PollResult, after: Runtime) {
    var b, a := before.status, after.status;
    if before.child.None? then after == before
    else match poll
      case StillRunning => after == before
      case Exited =>
        && after.child.None? && after.spawned == before.spawned
        && a == SlotStatus(b.slot, if b.state.Empty? then b.generation else b.generation + 1, Empty, None, None, None, None, None, None)
      case PollError(error) =>
        && after.child.None? && after.spawned == before.spawned
        && a == b.(state := Failed, lastError := Some(error), pid := None)
  }

  /** The record after at most one event. */
  function AfterPart(rt: Runtime, part: seq<Event>): Runtime
    requires |part| > 0 ==> Possible(rt, part[0])
  {
    if |part| == 0 then rt else After(rt, part[0])
  }

  /** The parts of a turn that are no commands are what the attempt to spawn and the poll make of any record the loop can have. */
  lemma PartsAreWhatTheyDo(rt: Runtime, spawn: SpawnResult, poll: PollResult)
    requires WellFormed(rt)
    ensures |SpawnPart(rt, spawn)| <= 1 && (|SpawnPart(rt, spawn)| > 0 ==> Possible(rt, SpawnPart(rt, spawn)[0]))
    ensures |PollPart(rt, poll)| <= 1 && (|PollPart(rt, poll)| > 0 ==> Possible(rt, PollPart(rt, poll)[0]))
    ensures Spawned(rt, spawn, AfterPart(rt, SpawnPart(rt, spawn)))
    ensures Polled(rt, poll, AfterPart(rt, PollPart(rt, poll)))
  {
  }

  /** `after` extends `before` by the work of one turn: spawn, drain and poll, in that order. */
  ghost predicate IsWork(slot: nat, before: seq<Event>, drained: seq<Command>, env: Iteration, after: seq<Event>)
    requires Legal(slot, before)
  {
    var spawned := before + SpawnPart(State(slot, before), env.spawn);
    var handled := spawned + HandlePart(drained, env.taps);
    && Legal(slot, spawned) && Spawned(State(slot, before), env.spawn, State(slot, spawned))
    && Legal(slot, handled)
    && after == handled + PollPart(State(slot, handled), env.poll)
    && Legal(slot, after) && Polled(State(slot, handled), env.poll, State(slot, after))
  }

  /** What the loop knows between two turns: what happened, and what is still queued. */
  datatype Turn = Turn(history: seq<Event>, queue: seq<Command>)

  /** One turn: spawn, drain and poll, then what the wait brought; a turn that sees shutdown at its top does nothing. */
  ghost predicate IsTurn(slot: nat, before: Turn, env: Iteration, attempts: nat, after: Turn) {
    Legal(slot, before.history) &&
    if env.shutdownSeen then after == before
    else
      var wakePart := WakePart(env.late, env.wake);
      && |after.history| >= |wakePart|
      && var worked := after.history[..|after.history| - |wakePart|];
         && IsWork(slot, before.history, before.queue + Delivered(env.arrivals, attempts), env, worked)
         && after.history == worked + wakePart
         && after.queue == (if |wakePart| == 0 then env.late else env.late[1..])
  }

  /** The turns of a loop, from the first to the last of those described. */
  ghost predicate AreTurns(slot: nat, turns: seq<Turn>, attempts: seq<nat>, script: seq<Iteration>) {
    && |turns| == |attempts| + 1 && |attempts| <= |script|
    && forall k :: 0 <= k < |attempts| ==> IsTurn(slot, turns[k], script[k], attempts[k], turns[k + 1])
  }

  lemma OneMoreTurn(slot: nat, turns: seq<Turn>, attempts: seq<nat>, script: seq<Iteration>, tried: nat, next: Turn)
    requires AreTurns(slot, turns, attempts, script) && |attempts| < |script|
    requires IsTurn(slot, turns[|attempts|], script[|attempts|], tried, next)
    ensures AreTurns(slot, turns + [next], attempts + [tried], script)
  {
    hide IsTurn;
    var longer, more := turns + [next], attempts + [tried];
    forall k | 0 <= k < |more| ensures IsTurn(slot, longer[k], script[k], more[k], longer[k + 1]) {
      if k < |attempts| {
        assert longer[k] == turns[k] && longer[k + 1] == turns[k + 1] && more[k] == attempts[k];
      }
    }
  }

  class SlotWorker {
    const slot: nat
    var status: SlotStatus
    var child: Option<Child>
    var spawned: nat
    /** The receiving half of the command channel. */
    var queue: seq<Command>
    var replies: seq<Reply>
    /** The handles of the children that were told to stop. */
    var stopped: set<nat>
    /** Whether the socket file was removed since the last child was started. */
    var socketClean: bool

    ghost var history: seq<Event>
    ghost var accepted: seq<Command>
    /** The handles of children that exited on their own, or whose exit could not be polled. */
    ghost var exited: set<nat>
    ghost var lost: set<nat>

    function Value(): Runtime
      reads this
    {
      Runtime(status, child, spawned)
    }

    /** The record is the state after the history, and the replies are those the history gives. */
    ghost predicate Coherent()
      reads this
    {
      Legal(slot, history) && Value() == State(slot, history) && replies == RepliesOf(slot, history)
    }

    /** Every child that was started is the current one, was told to stop, exited, or was lost. */
    ghost predicate ChildrenAccounted()
      reads this
    {
      && (child.Some? ==> child.value.handle < spawned)
      && forall h: nat :: h < spawned ==>
           (child.Some? && child.value.handle == h) || h in stopped || h in exited || h in lost
    }

    ghost predicate Valid()
      reads this
    {
      && Coherent()
      && accepted == CommandsOf(history) + queue
      && ChildrenAccounted()
    }

    constructor (slot: nat)
      ensures Valid() && this.slot == slot
      ensures Value() == InitialRuntime(slot) && history == [] && accepted == [] && queue == [] && replies == []
    {
      this.slot := slot;
      status := InitialRuntime(slot).status;
      child, spawned := None, 0;
      queue, replies := [], [];
      stopped, socketClean := {}, false;
      history, accepted, exited, lost := [], [], {}, {};
    }

    /** A kill that fails is only logged, so all that is known is that the child was told to stop. */
    method StopChild()
      requires child.Some?
      modifies this`stopped
      ensures stopped == old(stopped) + {child.value.handle}
    {
      stopped := stopped + {child.value.handle};
    }

    method CleanupApiSocket()
      modifies this`socketClean
      ensures socketClean
    {
      socketClean := true;
    }

    /** Forgets the VM, in the order of a release. */
    method ReleaseSlot()
      modifies this
      ensures Value() == Freed(old(Value()))
      ensures history == old(history) && replies == old(replies) && queue == old(queue) && accepted == old(accepted)
      ensures exited == old(exited) && lost == old(lost) && socketClean
      ensures stopped == old(stopped) + (if old(child).Some? then {old(child).value.handle} else {})
    {
      status := status.(state := Empty);
      status := status.(name := None);
      status := status.(mac := None);
      status := status.(tap := None);
      status := status.(generation := status.generation + 1);
      status := status.(lastError := None);
      status := status.(startedAt := None);
      status := status.(pid := None);
      if child.Some? {
        StopChild();
        child := None;
      }
      CleanupApiSocket();
    }

    /** Forgets the VM, in the order of a reset. */
    method ResetSlot()
      modifies this
      ensures Value() == Freed(old(Value()))
      ensures history == old(history) && replies == old(replies) && queue == old(queue) && accepted == old(accepted)
      ensures exited == old(exited) && lost == old(lost) && socketClean
      ensures stopped == old(stopped) + (if old(child).Some? then {old(child).value.handle} else {})
    {
      if child.Some? {
        StopChild();
        child := None;
      }
      CleanupApiSocket();
      status := status.(state := Empty);
      status := status.(name := None);
      status := status.(mac := None);
      status := status.(tap := None);
      status := status.(pid := None);
      status := status.(lastError := None);
      status := status.(startedAt := None);
      status := status.(generation := status.generation + 1);
    }

    /** The effect of one command on the record, and its answer. */
    method Perform(command: Command, tapError: Option<string>) returns (result: Reply)
      modifies this
      ensures Value() == Handled(old(Value()), command, tapError)
      ensures result == ReplyTo(old(Value()), command, tapError)
      ensures history == old(history) && replies == old(replies) && queue == old(queue) && accepted == old(accepted)
      ensures exited == old(exited) && lost == old(lost)
      ensures stopped == old(stopped) + (if old(child).Some? && child.None? then {old(child).value.handle} else {})
      ensures old(child).Some? && child.None? ==> socketClean
    {
      match command {
        case GetVmStatus =>
          result := Ok(status);
        case ReserveVm(newName, newMac, newTap) =>
          if status.state == Empty {
            if tapError.None? {
              status := status.(state := Booting);
              status := status.(name := Some(newName));
              status := status.(mac := Some(newMac));
              status := status.(tap := Some(newTap));
              status := status.(generation := status.generation + 1);
              status := status.(lastError := None);
              status := status.(startedAt := None);
              result := Ok(status);
            } else {
              result := Err(Backend(tapError.value));
            }
          } else {
            result := Err(InvalidTransition(status.slot, status.state, "claim"));
          }
        case MarkVmBooted(at) =>
          if status.state == Booting {
            status := status.(state := Occupied);
            status := status.(startedAt := Some(at));
            result := Ok(status);
          } else {
            result := Err(InvalidTransition(status.slot, status.state, "mark_booted"));
          }
        case ReleaseVm =>
          if status.state == Occupied {
            ReleaseSlot();
            result := Ok(status);
          } else {
            result := Err(InvalidTransition(status.slot, status.state, "release"));
          }
        case ResetVm =>
          ResetSlot();
          result := Ok(status);
      }
    }

    /** Handles one command and answers it. */
    method HandleCommand(command: Command, tapError: Option<string>)
      requires Coherent() && ChildrenAccounted()
      modifies this
      ensures Coherent() && ChildrenAccounted()
      ensures Value() == Handled(old(Value()), command, tapError)
      ensures replies == old(replies) + [ReplyTo(old(Value()), command, tapError)]
      ensures Served(old(Value()), command, tapError, Value(), replies[|replies| - 1])
      ensures history == old(history) + [Handle(command, tapError)]
      ensures queue == old(queue) && accepted == old(accepted)
      ensures stopped == old(stopped) + (if old(child).Some? && child.None? then {old(child).value.handle} else {})
    {
      ghost var before := Value();
      var result := Perform(command, tapError);
      replies := replies + [result];
      HandlingKeepsChild(before, command, tapError);
      Record(before, Handle(command, tapError));
    }

    lemma HandlingKeepsChild(rt: Runtime, command: Command, tapError: Option<string>)
      ensures Handled(rt, command, tapError).spawned == rt.spawned
      ensures Handled(rt, command, tapError).child == rt.child || Handled(rt, command, tapError).child.None?
    {
    }

    /** Notes the event that led from `before` to the present record. */
    ghost method Record(before: Runtime, event: Event)
      requires Legal(slot, history) && before == State(slot, history) && Possible(before, event)
      requires Value() == After(before, event)
      requires replies == RepliesOf(slot, history) + (if event.Handle? then [ReplyTo(before, event.command, event.tapError)] else [])
      modifies this`history
      ensures Coherent() && history == old(history) + [event]
      ensures history[..|old(history)|] == old(history)
    {
      LegalExtend(slot, history, event);
      assert (history + [event])[..|history|] == history;
      assert RepliesOf(slot, history + [event]) == replies;
      history := history + [event];
    }

    /** Starts a child if the slot should have one and has none. */
    method SpawnIfNeeded(spawn: SpawnResult)
      requires Valid()
      modifies this
      ensures Valid()
      ensures history == old(history) + SpawnPart(old(Value()), spawn)
      ensures Spawned(old(Value()), spawn, Value())
      ensures child.Some? || status.state.Failed?
      ensures queue == old(queue) && accepted == old(accepted) && replies == old(replies) && stopped == old(stopped)
    {
      hide Legal, State, RepliesOf, CommandsOf;
      if child.None? && ShouldSpawn(status.state) {
        CleanupApiSocket();
        ghost var before := Value();
        match spawn {
          case Started(number) =>
            status := status.(pid := Some(number));
            status := status.(lastError := None);
            child := Some(Child(spawned, number));
            spawned := spawned + 1;
            socketClean := false;
            NoteSpontaneous(before, SpawnOk(number));
          case NotStarted(error) =>
            status := status.(state := Failed);
            status := status.(lastError := Some(error));
            status := status.(pid := None);
            NoteSpontaneous(before, SpawnFailed(error));
        }
      }
    }

    /** Notes an event that was not a command. */
    ghost method NoteSpontaneous(before: Runtime, event: Event)
      requires Legal(slot, history) && before == State(slot, history) && Possible(before, event) && !event.Handle?
      requires Value() == After(before, event) && replies == RepliesOf(slot, history)
      requires accepted == CommandsOf(history) + queue
      modifies this`history
      ensures Coherent() && accepted == CommandsOf(history) + queue
      ensures history == old(history) + [event] && history[..|old(history)|] == old(history)
    {
      assert RepliesOf(slot, history) + [] == RepliesOf(slot, history);
      Record(before, event);
      SpontaneousKeepsCommands(old(history), history);
    }

    lemma SpontaneousKeepsCommands(before: seq<Event>, after: seq<Event>)
      requires |after| == |before| + 1 && after[..|before|] == before && !after[|before|].Handle?
      ensures CommandsOf(after) == CommandsOf(before)
    {
      assert CommandsOf(after) == CommandsOf(before) + [];
    }

    lemma HandledCommands(before: seq<Event>, after: seq<Event>)
      requires |after| == |before| + 1 && after[..|before|] == before && after[|before|].Handle?
      ensures CommandsOf(after) == CommandsOf(before) + [after[|before|].command]
    {
    }

    /** Commands reach the channel at any time. */
    method Deliver(commands: seq<Command>)
      requires Valid()
      modifies this`queue, this`accepted
      ensures Valid()
      ensures queue == old(queue) + commands && accepted == old(accepted) + commands
    {
      queue := queue + commands;
      accepted := accepted + commands;
    }

    /** Receives and handles the first queued command. */
    method TakeOne(tapError: Option<string>)
      requires Valid() && |queue| > 0
      modifies this
      ensures Valid()
      ensures Value() == Handled(old(Value()), old(queue)[0], tapError)
      ensures queue == old(queue)[1..] && accepted == old(accepted)
      ensures replies == old(replies) + [ReplyTo(old(Value()), old(queue)[0], tapError)]
      ensures history == old(history) + [Handle(old(queue)[0], tapError)]
    {
      var command := queue[0];
      queue := queue[1..];
      HandleCommand(command, tapError);
      assert history[..|old(history)|] == old(history);
      HandledCommands(old(history), history);
    }

    /** Receives and handles one command; then more may arrive before the next attempt to receive. */
    method TakeNext(arrivals: seq<seq<Command>>, attempts: nat, tapError: Option<string>,
                    ghost accepted0: seq<Command>, ghost queue0: seq<Command>, ghost handled: seq<Command>)
      requires Valid() && |queue| > 0 && Received(arrivals, attempts, accepted0, queue0, handled)
      modifies this
      ensures Valid() && Received(arrivals, attempts + 1, accepted0, queue0, handled + [old(queue)[0]])
      ensures attempts >= |arrivals| ==> |queue| == |old(queue)| - 1
      ensures replies == old(replies) + [ReplyTo(old(Value()), old(queue)[0], tapError)]
      ensures history == old(history) + [Handle(old(queue)[0], tapError)]
    {
      assert handled + [queue[0]] + queue[1..] == handled + queue;
      TakeOne(tapError);
      DeliverNext(arrivals, attempts, accepted0, queue0, handled + [old(queue)[0]]);
    }

    /** Receives and handles until an attempt finds the queue empty; `attempts` counts them all. */
    method Drain(arrivals: seq<seq<Command>>, taps: seq<Option<string>>) returns (attempts: nat)
      requires Valid()
      modifies this
      ensures Valid() && queue == []
      ensures accepted == old(accepted) + Delivered(arrivals, attempts)
      ensures history == old(history) + HandlePart(old(queue) + Delivered(arrivals, attempts), taps)
      ensures old(replies) <= replies
      ensures |replies| + 1 == |old(replies)| + attempts
    {
      hide Coherent, ChildrenAccounted;
      ghost var accepted0, queue0 := accepted, queue;
      ghost var handled: seq<Command> := [];
      DeliverNext(arrivals, 0, accepted0, queue0, handled);
      attempts, handled := DrainQueue(arrivals, taps, accepted0, queue0);
      assert handled + [] == handled;
    }

    /** The loop of a drain, after the first commands arrived. */
    method DrainQueue(arrivals: seq<seq<Command>>, taps: seq<Option<string>>, ghost accepted0: seq<Command>, ghost queue0: seq<Command>)
      returns (attempts: nat, ghost handled: seq<Command>)
      requires Valid() && Received(arrivals, 1, accepted0, queue0, [])
      modifies this
      ensures Valid() && queue == [] && attempts == |handled| + 1
      ensures Received(arrivals, attempts, accepted0, queue0, handled)
      ensures history == old(history) + HandlePart(handled, taps)
      ensures |replies| == |old(replies)| + |handled| && old(replies) <= replies
    {
      hide Valid, Received, Delivered;
      handled, attempts := [], 1;
      while |queue| > 0
        invariant Valid() && attempts == |handled| + 1
        invariant Received(arrivals, attempts, accepted0, queue0, handled)
        invariant history == old(history) + HandlePart(handled, taps)
        invariant |replies| == |old(replies)| + |handled| && old(replies) <= replies
        decreases if attempts < |arrivals| then |arrivals| - attempts else 0, |queue|
      {
        HandlePartNext(handled, queue, taps);
        ghost var head := queue[0];
        TakeNext(arrivals, attempts, TapAt(taps, attempts - 1), accepted0, queue0, handled);
        handled := handled + [head];
        attempts := attempts + 1;
      }
    }

    /** What was accepted and handled so far, given what the channel held at first. */
    ghost predicate Received(arrivals: seq<seq<Command>>, attempts: nat, accepted0: seq<Command>, queue0: seq<Command>, handled: seq<Command>)
      reads this
    {
      accepted == accepted0 + Delivered(arrivals, attempts) && handled + queue == queue0 + Delivered(arrivals, attempts)
    }

    lemma HandlePartNext(handled: seq<Command>, waiting: seq<Command>, taps: seq<Option<string>>)
      requires |waiting| > 0
      ensures HandlePart(handled + [waiting[0]], taps) == HandlePart(handled, taps) + [Handle(waiting[0], TapAt(taps, |handled|))]
      ensures handled + [waiting[0]] + waiting[1..] == handled + waiting
    {
      assert (handled + [waiting[0]])[..|handled|] == handled;
    }

    /** What arrives before the next attempt to receive. */
    method DeliverNext(arrivals: seq<seq<Command>>, attempts: nat,
                       ghost accepted0: seq<Command>, ghost queue0: seq<Command>, ghost handled: seq<Command>)
      requires Valid() && Received(arrivals, attempts, accepted0, queue0, handled)
      modifies this`queue, this`accepted
      ensures Valid() && Received(arrivals, attempts + 1, accepted0, queue0, handled)
      ensures attempts >= |arrivals| ==> queue == old(queue)
      ensures history == old(history) && replies == old(replies)
    {
      DeliveredNext(arrivals, attempts);
      ghost var waiting := queue;
      if attempts < |arrivals| {
        Deliver(arrivals[attempts]);
        assert handled + queue == (handled + waiting) + arrivals[attempts];
      }
    }

    lemma WellFormedNow()
      requires Coherent()
      ensures WellFormed(Value())
    {
      RunsAreWellFormed(slot, history);
    }

    /** The child exited on its own: its VM, if any, is over and the slot can be used again. */
    method NoteExit()
      requires Valid() && child.Some?
      modifies this
      ensures Valid() && Value() == After(old(Value()), ChildExited)
      ensures queue == old(queue) && accepted == old(accepted) && replies == old(replies) && stopped == old(stopped)
      ensures history == old(history) + [ChildExited]
    {
      hide Legal, State, RepliesOf, CommandsOf;
      ghost var before := Value();
      FailedSlotsHaveNoChild(slot, history);
      exited := exited + {child.value.handle};
      child := None;
      status := status.(pid := None);
      CleanupApiSocket();
      if status.state == Booting || status.state == Occupied {
        status := status.(state := Empty);
        status := status.(name := None);
        status := status.(mac := None);
        status := status.(tap := None);
        status := status.(startedAt := None);
        status := status.(lastError := None);
        status := status.(generation := status.generation + 1);
      }
      NoteSpontaneous(before, ChildExited);
    }

    method NotePollError(error: string)
      requires Valid() && child.Some?
      modifies this
      ensures Valid() && Value() == After(old(Value()), PollFailed(error))
      ensures queue == old(queue) && accepted == old(accepted) && replies == old(replies) && stopped == old(stopped)
      ensures history == old(history) + [PollFailed(error)]
    {
      hide Legal, State, RepliesOf, CommandsOf;
      ghost var before := Value();
      lost := lost + {child.value.handle};
      child := None;
      status := status.(pid := None);
      status := status.(state := Failed);
      status := status.(lastError := Some(error));
      CleanupApiSocket();
      NoteSpontaneous(before, PollFailed(error));
    }

    /** Polls the child, if there is one, for its exit. */
    method PollChild(poll: PollResult)
      requires Valid()
      modifies this
      ensures Valid()
      ensures history == old(history) + PollPart(old(Value()), poll)
      ensures Polled(old(Value()), poll, Value())
      ensures queue == old(queue) && accepted == old(accepted) && replies == old(replies) && stopped == old(stopped)
    {
      WellFormedNow();
      PartsAreWhatTheyDo(Value(), NotStarted(""), poll);
      if child.Some? {
        match poll {
          case Exited => NoteExit();
          case StillRunning =>
          case PollError(error) => NotePollError(error);
        }
      }
    }

    /** Leaving the loop: the child is told to stop and the socket is removed. */
    method Leave()
      modifies this`stopped, this`socketClean
      requires Valid()
      ensures Valid() && socketClean
      ensures child.Some? ==> child.value.handle in stopped
      ensures old(stopped) <= stopped
    {
      if child.Some? {
        StopChild();
      }
      CleanupApiSocket();
    }

    /** The work of one turn, before the wait: spawn if needed, drain the queue, poll the child. */
    method Work(env: Iteration) returns (attempts: nat)
      requires Valid()
      modifies this
      ensures Valid() && queue == []
      ensures var arrived := Delivered(env.arrivals, attempts);
              accepted == old(accepted) + arrived && IsWork(slot, old(history), old(queue) + arrived, env, history)
      ensures old(replies) <= replies
      // first the attempt to spawn, last the poll, and the commands between them
      ensures InOrder(|old(history)|, history)
    {
      hide ChildrenAccounted, Delivered, InOrder, HandlePart, SpawnPart, PollPart, Spawned, Polled, RepliesOf, CommandsOf;
      ghost var before := Value();
      SpawnIfNeeded(env.spawn);
      ghost var waiting := queue;
      attempts := Drain(env.arrivals, env.taps);
      ghost var handled := Value();
      PollChild(env.poll);
      WorkIsInOrder(old(history), before, env, waiting + Delivered(env.arrivals, attempts), handled);
    }

    /** What ends the wait, with an empty queue behind it. */
    method Await(late: seq<Command>, wake: Wake) returns (verdict: Verdict)
      requires Valid() && queue == []
      modifies this
      ensures Valid()
      ensures accepted == old(accepted) + late
      ensures history == old(history) + WakePart(late, wake)
      ensures late != [] && (wake.CommandReady? || wake.SendersGone?) ==>
                && queue == late[1..] && |history| == |old(history)| + 1
                && history[|old(history)|] == Handle(late[0], if wake.CommandReady? then wake.tapError else None)
      ensures late == [] || !(wake.CommandReady? || wake.SendersGone?) ==> queue == late && history == old(history)
      ensures old(replies) <= replies
      ensures queue == (if |WakePart(late, wake)| == 0 then late else late[1..])
      ensures verdict.LeftOnShutdown? <==> wake == ShutdownChanged(true) || wake == ShutdownSenderGone
      ensures verdict.LeftOnClosedChannel? <==> wake == SendersGone && late == []
      ensures !verdict.Continue? ==> socketClean && (child.Some? ==> child.value.handle in stopped)
    {
      Deliver(late);
      match wake {
        case ShutdownChanged(value) =>
          if value {
            Leave();
            return LeftOnShutdown;
          }
        case ShutdownSenderGone =>
          Leave();
          return LeftOnShutdown;
        case CommandReady(tapError) =>
          if |queue| > 0 {
            TakeOne(tapError);
          }
        case SendersGone =>
          // the channel reports its end only once it is empty
          if |queue| == 0 {
            Leave();
            return LeftOnClosedChannel;
          }
          TakeOne(None);
        case TimerFired =>
      }
      return Continue;
    }

    /**
     One turn of the loop. It leaves exactly when shutdown was seen at the top, or the wait ended
     because shutdown was announced, its sender is gone, or all command senders are gone; then
     the child was told to stop and the socket removed, and nothing more is handled.
     */
    method Iterate(env: Iteration) returns (verdict: Verdict, attempts: nat)
      requires Valid()
      modifies this
      ensures Valid()
      ensures old(replies) <= replies
      ensures env.shutdownSeen ==> replies == old(replies) && accepted == old(accepted)
      ensures !env.shutdownSeen ==> accepted == old(accepted) + Delivered(env.arrivals, attempts) + env.late
      ensures IsTurn(slot, Turn(old(history), old(queue)), env, attempts, Turn(history, queue))
      ensures verdict.LeftOnShutdown? <==>
                env.shutdownSeen || env.wake == ShutdownChanged(true) || env.wake == ShutdownSenderGone
      ensures verdict.LeftOnClosedChannel? <==> !env.shutdownSeen && env.wake == SendersGone && env.late == []
      ensures !verdict.Continue? ==> socketClean && (child.Some? ==> child.value.handle in stopped)
    {
      if env.shutdownSeen {
        Leave();
        return LeftOnShutdown, 0;
      }
      attempts := Work(env);
      ghost var worked := history;
      verdict := Await(env.late, env.wake);
      assert history[..|worked|] == worked;
    }

    /**
     The loop, for as long as the surroundings are described: the history and the queue at its end
     are what its turns, one after the other, make of those at its beginning.
     */
    method Supervise(script: seq<Iteration>) returns (verdict: Verdict, turns: nat, ghost trace: seq<Turn>, ghost attempts: seq<nat>)
      requires Valid()
      modifies this
      ensures Valid()
      ensures old(replies) <= replies
      ensures AreTurns(slot, trace, attempts, script) && |attempts| == turns
      ensures trace[0] == Turn(old(history), old(queue)) && trace[turns] == Turn(history, queue)
      ensures turns <= |script| && (verdict.Continue? ==> turns == |script|)
      ensures !verdict.Continue? ==> turns > 0 && socketClean && (child.Some? ==> child.value.handle in stopped)
      ensures verdict.LeftOnShutdown? ==>
                var last := script[turns - 1];
                last.shutdownSeen || last.wake == ShutdownChanged(true) || last.wake == ShutdownSenderGone
      ensures verdict.LeftOnClosedChannel? ==> script[turns - 1].wake == SendersGone
      ensures forall k :: 0 <= k < (if verdict.Continue? then turns else turns - 1) ==>
                !script[k].shutdownSeen && script[k].wake != ShutdownChanged(true) && script[k].wake != ShutdownSenderGone
    {
      hide Coherent, ChildrenAccounted, IsTurn;
      verdict, turns := Continue, 0;
      trace, attempts := [Turn(history, queue)], [];
      while turns < |script| && verdict.Continue?
        invariant Valid() && turns <= |script|
        invariant old(replies) <= replies
        invariant AreTurns(slot, trace, attempts, script) && |attempts| == turns
        invariant trace[0] == Turn(old(history), old(queue)) && trace[turns] == Turn(history, queue)
        invariant !verdict.Continue? ==> turns > 0 && socketClean && (child.Some? ==> child.value.handle in stopped)
        invariant verdict.LeftOnShutdown? ==>
                    var last := script[turns - 1];
                    last.shutdownSeen || last.wake == ShutdownChanged(true) || last.wake == ShutdownSenderGone
        invariant verdict.LeftOnClosedChannel? ==> script[turns - 1].wake == SendersGone
        invariant forall k :: 0 <= k < (if verdict.Continue? then turns else turns - 1) ==>
                    !script[k].shutdownSeen && script[k].wake != ShutdownChanged(true) && script[k].wake != ShutdownSenderGone
        decreases |script| - turns
      {
        var tried;
        verdict, tried := Iterate(script[turns]);
        OneMoreTurn(slot, trace, attempts, script, tried, Turn(history, queue));
        trace, attempts := trace + [Turn(history, queue)], attempts + [tried];
        turns := turns + 1;
      }
    }
  }
}
