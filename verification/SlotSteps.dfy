/**
 The slot worker as a transition system on values: what each command and each spontaneous
 event (a spawn attempt, an exit poll) does to one slot, and what holds over every run.
 */
module SlotSteps {
  import opened Slots

  /** Capacity of the command channel of a slot. */
  const CHANNEL_CAPACITY: nat := 16

  /** A spawned process: `handle` is unique among the children of one worker, `pid` is the system's number. */
  datatype Child = Child(handle: nat, pid: nat)

  /** The worker's record of its slot; `spawned` counts the children it has started so far. */
  datatype Runtime = Runtime(status: SlotStatus, child: Option<Child>, spawned: nat)

  datatype Event =
    | SpawnOk(pid: nat)
    | SpawnFailed(error: string)
    | Handle(command: Command, tapError: Option<string>)
    | ChildExited
    | PollFailed(error: string)

  function InitialRuntime(slot: nat): Runtime {
    Runtime(SlotStatus(slot, 0, Empty, None, None, None, None, None, None), None, 0)
  }

  predicate ShouldSpawn(state: SlotState) {
    state.Empty? || state.Booting? || state.Occupied?
  }

  /** The status of a slot whose VM is gone: no identity, the next generation. */
  function Cleared(status: SlotStatus): SlotStatus {
    status.(generation := status.generation + 1, state := Empty, name := None, mac := None, tap := None,
            pid := None, startedAt := None, lastError := None)
  }

  /** The slot after its child was stopped and its VM forgotten. */
  function Freed(rt: Runtime): Runtime {
    rt.(status := Cleared(rt.status), child := None)
  }

  /** The slot after handling one command; `tapError` is the outcome of creating the tap device. */
  function Handled(rt: Runtime, command: Command, tapError: Option<string>): Runtime
  {
    match command
    case GetVmStatus => rt
    case ReserveVm(name, mac, tap) =>
      if rt.status.state.Empty? && tapError.None? then
        rt.(status := rt.status.(generation := rt.status.generation + 1, state := Booting, name := Some(name),
                                 mac := Some(mac), tap := Some(tap), startedAt := None, lastError := None))
      else rt
    case MarkVmBooted(startedAt) =>
      if rt.status.state.Booting? then
        rt.(status := rt.status.(state := Occupied, startedAt := Some(startedAt)))
      else rt
    case ReleaseVm => if rt.status.state.Occupied? then Freed(rt) else rt
    case ResetVm => Freed(rt)
  }

  /** What the requester is told: the status after the command, or why it was refused. */
  function ReplyTo(rt: Runtime, command: Command, tapError: Option<string>): Reply
  {
    var after := Ok(Handled(rt, command, tapError).status);
    match command
    case GetVmStatus => after
    case ReserveVm(_, _, _) =>
      if !rt.status.state.Empty? then Err(InvalidTransition(rt.status.slot, rt.status.state, "claim"))
      else if tapError.Some? then Err(Backend(tapError.value))
      else after
    case MarkVmBooted(_) =>
      if rt.status.state.Booting? then after
      else Err(InvalidTransition(rt.status.slot, rt.status.state, "mark_booted"))
    case ReleaseVm =>
      if rt.status.state.Occupied? then after
      else Err(InvalidTransition(rt.status.slot, rt.status.state, "release"))
    case ResetVm => after
  }

  predicate Possible(rt: Runtime, event: Event) {
    match event
    case SpawnOk(_) => rt.child.None? && ShouldSpawn(rt.status.state)
    case SpawnFailed(_) => rt.child.None? && ShouldSpawn(rt.status.state)
    case Handle(_, _) => true
    case ChildExited => rt.child.Some?
    case PollFailed(_) => rt.child.Some?
  }

  function After(rt: Runtime, event: Event): Runtime
    requires Possible(rt, event)
  {
    match event
    case SpawnOk(pid) =>
      Runtime(rt.status.(pid := Some(pid), lastError := None), Some(Child(rt.spawned, pid)), rt.spawned + 1)
    case SpawnFailed(error) =>
      rt.(status := rt.status.(state := Failed, lastError := Some(error), pid := None))
    case Handle(command, tapError) => Handled(rt, command, tapError)
    case ChildExited =>
      if rt.status.state.Booting? || rt.status.state.Occupied? then Freed(rt)
      else rt.(status := rt.status.(pid := None), child := None)
    case PollFailed(error) =>
      rt.(status := rt.status.(state := Failed, lastError := Some(error), pid := None), child := None)
  }

  // ---------- What every state of a slot looks like ----------

  ghost predicate WellFormed(rt: Runtime) {
    var s := rt.status;
    && (s.state.Empty? ==> s.name.None? && s.startedAt.None?)
    && (s.state.Booting? ==> s.name.Some? && s.startedAt.None?)
    && (s.state.Occupied? ==> s.name.Some? && s.startedAt.Some?)
    && (s.state.Failed? <==> s.lastError.Some?)
    && (s.state.Failed? ==> rt.child.None? && (s.startedAt.Some? ==> s.name.Some?))
    && (s.name.Some? <==> s.mac.Some?)
    && (s.name.Some? <==> s.tap.Some?)
    && s.pid == (if rt.child.Some? then Some(rt.child.value.pid) else None)
    && (rt.child.Some? ==> rt.child.value.handle < rt.spawned)
  }

  lemma StepKeepsWellFormed(rt: Runtime, event: Event)
    requires WellFormed(rt) && Possible(rt, event)
    ensures WellFormed(After(rt, event))
    ensures After(rt, event).status.slot == rt.status.slot
  {
  }

  // ---------- Epochs ----------

  function Rank(state: SlotState): nat {
    match state
    case Empty => 0
    case Booting => 0
    case Occupied => 1
    case Failed => 2
  }

  /**
   How a slot status may have changed since it was `a`: generations only grow; within one
   generation the identity is fixed, the state only advances, the start time is set at most
   once, and a reserved slot keeps its process until it fails.
   */
  ghost predicate Since(a: SlotStatus, b: SlotStatus) {
    && a.slot == b.slot
    && a.generation <= b.generation
    && (a.generation == b.generation ==>
          && a.name == b.name && a.mac == b.mac && a.tap == b.tap
          && Rank(a.state) <= Rank(b.state)
          && (a.startedAt.Some? ==> b.startedAt == a.startedAt)
          && (a.name.Some? && a.pid.Some? ==> b.pid == a.pid || b.state.Failed?))
  }

  /** The same for the whole record, with the identity of the child process. */
  ghost predicate Evolved(a: Runtime, b: Runtime) {
    && Since(a.status, b.status)
    && a.spawned <= b.spawned
    && (b.child.Some? ==> b.child == a.child || b.child.value.handle >= a.spawned)
    // one reservation, one child
    && (a.status.generation == b.status.generation && a.status.name.Some? && a.child.Some? ==>
          b.child == a.child || b.status.state.Failed?)
    // one child, one reservation
    && (a.status.name.Some? && a.child.Some? && b.child == a.child ==> b.status.generation == a.status.generation)
  }

  lemma EvolvedStep(rt: Runtime, event: Event)
    requires WellFormed(rt) && Possible(rt, event)
    ensures Evolved(rt, After(rt, event))
  {
  }

  lemma EvolvedTransitive(a: Runtime, b: Runtime, c: Runtime)
    requires WellFormed(a) && WellFormed(b) && WellFormed(c)
    requires Evolved(a, b) && Evolved(b, c)
    ensures Evolved(a, c)
  {
  }
}
