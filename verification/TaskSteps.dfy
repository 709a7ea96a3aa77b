/** The steps of the tasks keep the invariant. */
module TaskSteps {
  import opened Slots
  import opened SlotSteps
  import opened Decimal
  import opened Protocol
  import opened ProtocolInvariant

  // ---------- Sending a command ----------

  /** What may be posted without disturbing a task: a reservation only when the task holds no guard. */
  ghost predicate MayPost(p: Shared, slot: nat, command: Command) {
    && slot < |p.slots|
    && p.slots[slot].task.Running?
    && |p.slots[slot].mailbox| < CHANNEL_CAPACITY
    && (command.ReserveVm? ==> command.tap == TapName(slot))
  }

  lemma PostKeepsSlots(p: Shared, slot: nat, command: Command)
    requires SlotsOk(p) && MayPost(p, slot, command)
    ensures SlotsOk(Posted(p, slot, command))
  {
    var p' := Posted(p, slot, command);
    forall k | 0 <= k < |p'.slots| ensures WorkerOk(p', k, p'.slots[k]) {
      assert WorkerOk(p, k, p.slots[k]);
    }
  }

  lemma PostKeepsNames(p: Shared, slot: nat, command: Command)
    requires UniqueNames(p) && MayPost(p, slot, command)
    requires command.ReserveVm? ==> forall i :: 0 <= i < |p.slots| ==> NameOf(p.slots[i]) != Some(command.name)
    requires command.ReserveVm? ==> forall i, e :: 0 <= i < |p.slots| && e in p.slots[i].mailbox ==> !e.command.ReserveVm?
    ensures UniqueNames(Posted(p, slot, command))
  {
    PostedReserves(p, slot, command);
    PostKeepsSingle(p, slot, command);
    PostKeepsFresh(p, slot, command);
  }

  /** The reservations queued after a command was posted. */
  lemma PostedReserves(p: Shared, slot: nat, command: Command)
    requires slot < |p.slots|
    requires command.ReserveVm? ==> forall i, e :: 0 <= i < |p.slots| && e in p.slots[i].mailbox ==> !e.command.ReserveVm?
    ensures var p' := Posted(p, slot, command);
            forall i, e :: 0 <= i < |p'.slots| && e in p'.slots[i].mailbox && e.command.ReserveVm? ==>
              if command.ReserveVm? then i == slot && e == Envelope(p.nextTicket, command) else e in p.slots[i].mailbox
  {
  }

  lemma PostKeepsSingle(p: Shared, slot: nat, command: Command)
    requires SingleReserve(p.slots) && slot < |p.slots|
    requires command.ReserveVm? ==> forall i, e :: 0 <= i < |p.slots| && e in p.slots[i].mailbox ==> !e.command.ReserveVm?
    ensures SingleReserve(Posted(p, slot, command).slots)
  {
    PostedReserves(p, slot, command);
    hide Posted;
  }

  lemma PostKeepsFresh(p: Shared, slot: nat, command: Command)
    requires FreshReserves(p.slots) && DistinctNames(p.slots) && slot < |p.slots|
    requires command.ReserveVm? ==> forall i :: 0 <= i < |p.slots| ==> NameOf(p.slots[i]) != Some(command.name)
    requires command.ReserveVm? ==> forall i, e :: 0 <= i < |p.slots| && e in p.slots[i].mailbox ==> !e.command.ReserveVm?
    ensures FreshReserves(Posted(p, slot, command).slots) && DistinctNames(Posted(p, slot, command).slots)
  {
    PostedReserves(p, slot, command);
    assert forall i :: 0 <= i < |p.slots| ==> NameOf(Posted(p, slot, command).slots[i]) == NameOf(p.slots[i]);
  }

  lemma PostKeepsAllocation(p: Shared, slot: nat, command: Command, task: Task)
    requires MayPost(p, slot, command) && task.since <= p.nextTicket && JobFits(task.job, task.pc) && AllocationOk(p, task)
    requires command.ReserveVm? ==> !task.pc.FindByName?
    ensures AllocationOk(Posted(p, slot, command), task)
  {
  }

  lemma PostKeepsTarget(p: Shared, slot: nat, command: Command, task: Task, target: SlotStatus)
    requires MayPost(p, slot, command) && task.since <= p.nextTicket && TargetOk(p, task.job, task.since, target)
    requires !command.ReserveVm?
    ensures TargetOk(Posted(p, slot, command), task.job, task.since, target)
  {
  }

  lemma PostKeepsPoolWork(p: Shared, slot: nat, command: Command, task: Task)
    requires MayPost(p, slot, command) && task.since <= p.nextTicket && PoolWorkOk(p, task)
    ensures PoolWorkOk(Posted(p, slot, command), task)
  {
    var p' := Posted(p, slot, command);
    match task.pc {
      case JoinTail(popped) => assert WorkerOk(p', |p'.slots|, popped);
      case JoinDrained(popped) => assert WorkerOk(p', |p'.slots|, popped);
      case _ =>
    }
  }

  lemma PostKeepsPc(p: Shared, slot: nat, command: Command, task: Task)
    requires MayPost(p, slot, command) && task.since <= p.nextTicket && PcOk(p, task)
    requires command.ReserveVm? ==> !task.pc.FindByName? && TargetOf(task.pc).None?
    ensures PcOk(Posted(p, slot, command), task)
  {
    PostKeepsAllocation(p, slot, command, task);
    PostKeepsPoolWork(p, slot, command, task);
    if TargetOf(task.pc).Some? {
      PostKeepsTarget(p, slot, command, task, TargetOf(task.pc).value);
    }
  }

  lemma PostKeepsCall(p: Shared, slot: nat, command: Command, task: Task)
    requires MayPost(p, slot, command) && task.since <= p.nextTicket && CallOk(p, task)
    requires command.ReserveVm? ==> task.call.None?
    ensures CallOk(Posted(p, slot, command), task)
  {
  }

  lemma PostKeepsTask(p: Shared, slot: nat, command: Command, task: Task)
    requires MayPost(p, slot, command) && TaskOk(p, task)
    requires command.ReserveVm? ==> GuardOf(task).NoGuard?
    ensures TaskOk(Posted(p, slot, command), task)
  {
    PostKeepsPc(p, slot, command, task);
    PostKeepsCall(p, slot, command, task);
  }

  lemma ObserveKeepsInv(s: System, slot: nat)
    requires Inv(s) && Enabled(s, Observe(slot))
    ensures Inv(Step(s, Observe(slot)))
  {
    hide TaskOk, SlotsOk, UniqueNames;
    PostKeepsSlots(s.pool, slot, GetVmStatus);
    PostKeepsNames(s.pool, slot, GetVmStatus);
    forall t | t in s.tasks ensures TaskOk(Posted(s.pool, slot, GetVmStatus), s.tasks[t]) {
      PostKeepsTask(s.pool, slot, GetVmStatus, s.tasks[t]);
    }
  }

  // ---------- Changing one task ----------

  /** Replacing a task by one that is fine and needs no more of the lock keeps the invariant. */
  lemma TaskReplaced(s: System, t: nat, task: Task)
    requires Inv(s) && TaskOk(s.pool, task)
    requires t in s.tasks ==> GuardOf(task) == GuardOf(s.tasks[t]) || GuardOf(task).NoGuard?
    requires t !in s.tasks ==> GuardOf(task).NoGuard?
    ensures Inv(WithTask(s, t, task))
  {
  }

  lemma IdleTaskIsOk(p: Shared, task: Task)
    requires GuardOf(task).NoGuard? && task.call.None? && task.since <= p.nextTicket
    requires JobFits(task.job, task.pc)
    requires BookingOf(task.pc).Some? ==> BookingOk(p, task.job, BookingOf(task.pc).value.0, BookingOf(task.pc).value.1)
    ensures TaskOk(p, task)
  {
  }

  lemma SendKeepsInv(s: System, t: nat)
    requires Inv(s) && Enabled(s, Send(t))
    ensures Inv(Step(s, Send(t)))
  {
    var task, p := s.tasks[t], s.pool;
    var request := RequestAt(task, |p.slots|).value;
    if request.0 < |p.slots| && p.slots[request.0].task.Running? {
      SendMayPost(p, task, request.0, request.1);
      SendPosts(s, t, request.0, request.1);
    } else {
      var error := if request.0 >= |p.slots| then SlotNotFound(request.0) else ChannelClosed;
      SendFails(s, t, error);
    }
  }

  lemma SendMayPost(p: Shared, task: Task, slot: nat, command: Command)
    requires TaskOk(p, task) && RequestAt(task, |p.slots|) == Some((slot, command))
    requires slot < |p.slots| && p.slots[slot].task.Running? && |p.slots[slot].mailbox| < CHANNEL_CAPACITY
    ensures MayPost(p, slot, command)
  {
  }

  lemma SendFails(s: System, t: nat, error: PoolError)
    requires Inv(s) && t in s.tasks && s.tasks[t].call.None? && RequestAt(s.tasks[t], |s.pool.slots|).Some?
    ensures Inv(WithTask(s, t, s.tasks[t].(pc := OnError(s.tasks[t], error))))
  {
    hide CallOk, ClearOf, ScanOk, TargetOk, PoolWorkOk, PoolOk;
    var stopped := s.tasks[t].(pc := OnError(s.tasks[t], error));
    assert TaskOk(s.pool, s.tasks[t]);
    IdleTaskIsOk(s.pool, stopped);
    TaskReplaced(s, t, stopped);
  }

  lemma SendPosts(s: System, t: nat, slot: nat, command: Command)
    requires Inv(s) && Enabled(s, Send(t)) && MayPost(s.pool, slot, command)
    requires RequestAt(s.tasks[t], |s.pool.slots|) == Some((slot, command))
    ensures Inv(WithTask(System(Posted(s.pool, slot, command), s.tasks), t,
                         s.tasks[t].(call := Some(Call(s.pool.nextTicket, slot, command)))))
  {
    hide TaskOk, SlotsOk, UniqueNames;
    var task, p := s.tasks[t], s.pool;
    assert TaskOk(p, task);
    PostKeepsSlots(p, slot, command);
    if command.ReserveVm? {
      ReserveIsFree(p, task);
    }
    PostKeepsNames(p, slot, command);
    WaitingTaskIsOk(p, slot, command, task);
    forall u | u in s.tasks && u != t ensures TaskOk(Posted(p, slot, command), s.tasks[u]) {
      assert TaskOk(p, s.tasks[u]);
      PostKeepsTask(p, slot, command, s.tasks[u]);
    }
  }

  /** Whoever is about to reserve has seen that the name is free and that nothing else is in flight. */
  lemma ReserveIsFree(p: Shared, task: Task)
    requires TaskOk(p, task) && task.pc.Reserve? && task.call.None?
    ensures forall i :: 0 <= i < |p.slots| ==> NameOf(p.slots[i]) != Some(task.job.name)
    ensures forall i, e :: 0 <= i < |p.slots| && e in p.slots[i].mailbox ==> !e.command.ReserveVm?
  {
    forall i, e | 0 <= i < |p.slots| && e in p.slots[i].mailbox ensures !e.command.ReserveVm? {
      assert Flushed(p.slots[i], task.since);
    }
  }

  lemma WaitingTaskIsOk(p: Shared, slot: nat, command: Command, task: Task)
    requires SlotsOk(p) && AnswersOk(p) && TaskOk(p, task) && MayPost(p, slot, command) && task.call.None?
    requires RequestAt(task, |p.slots|) == Some((slot, command))
    ensures TaskOk(Posted(p, slot, command), task.(call := Some(Call(p.nextTicket, slot, command))))
  {
    OwnPostKeepsPc(p, slot, command, task);
    NewCallIsOk(p, slot, command, task);
    OwnPostKeepsGuard(p, slot, command, task);
  }

  lemma OwnPostKeepsGuard(p: Shared, slot: nat, command: Command, task: Task)
    requires GuardOk(p, task) && slot < |p.slots| && task.call.None?
    requires RequestAt(task, |p.slots|) == Some((slot, command))
    ensures GuardOk(Posted(p, slot, command), task.(call := Some(Call(p.nextTicket, slot, command))))
  {
    if !command.ReserveVm? {
      PostedReserves(p, slot, command);
    }
  }

  /** A task that sends a reservation no longer needs to know that none is in flight. */
  lemma OwnPostKeepsPc(p: Shared, slot: nat, command: Command, task: Task)
    requires TaskOk(p, task) && MayPost(p, slot, command) && task.call.None?
    requires RequestAt(task, |p.slots|) == Some((slot, command))
    ensures PcOk(Posted(p, slot, command), task.(call := Some(Call(p.nextTicket, slot, command))))
  {
    PostKeepsPc(p, slot, command, task);
    var p', waiting := Posted(p, slot, command), task.(call := Some(Call(p.nextTicket, slot, command)));
    assert PcOk(p', task);
    hide CallOk, GuardOk, BookingOk, TargetOk, ScanOk, WorkerOk, Flushed;
    assert AllocationOk(p', waiting);
    assert PoolWorkOk(p', waiting);
  }

  lemma NewCallIsOk(p: Shared, slot: nat, command: Command, task: Task)
    requires SlotsOk(p) && AnswersOk(p) && task.since <= p.nextTicket && slot < |p.slots| && task.call.None?
    requires RequestAt(task, |p.slots|) == Some((slot, command))
    ensures CallOk(Posted(p, slot, command), task.(call := Some(Call(p.nextTicket, slot, command))))
  {
    hide AnswerOk;
    var p' := Posted(p, slot, command);
    forall i, e | 0 <= i < |p'.slots| && e in p'.slots[i].mailbox && e.ticket == p.nextTicket
      ensures i == slot && e.command == command
    {
      assert WorkerOk(p, i, p.slots[i]);
    }
  }
}
