/** A step of a slot worker keeps the invariant. */
module WorkerSteps {
  import opened Slots
  import opened SlotSteps
  import opened Protocol
  import opened ProtocolInvariant

  lemma MailboxShrinks(w: Worker, event: WorkerEvent)
    requires WorkerCan(w, true, event)
    ensures forall e :: e in WorkerAfter(w, event).mailbox ==> e in w.mailbox
    ensures event.Take? ==> w.mailbox[0] in w.mailbox
  {
  }

  lemma WorkerStaysOk(p: Shared, i: nat, w: Worker, event: WorkerEvent)
    requires WorkerOk(p, i, w) && WorkerCan(w, p.shutdown, event)
    ensures WorkerOk(p, i, WorkerAfter(w, event))
  {
    MailboxShrinks(w, event);
  }

  lemma SinceKept(st: SlotStatus, w: Worker, event: WorkerEvent)
    requires WellFormed(w.rt) && WorkerCan(w, true, event) && Since(st, w.rt.status)
    ensures Since(st, WorkerAfter(w, event).rt.status)
  {
  }

  lemma TrailsKept(st: SlotStatus, w: Worker, event: WorkerEvent)
    requires WellFormed(w.rt) && WorkerCan(w, true, event) && Trails(st, w.rt.status)
    requires event.Take? ==> !w.mailbox[0].command.ReserveVm?
    ensures Trails(st, WorkerAfter(w, event).rt.status)
  {
  }

  lemma SlotsStayOk(p: Shared, i: nat, event: WorkerEvent)
    requires SlotsOk(p) && WorkerEnabled(p, i, event)
    ensures SlotsOk(WorkerStepped(p, i, event))
  {
    var p' := WorkerStepped(p, i, event);
    WorkerStaysOk(p, i, p.slots[i], event);
    forall k | 0 <= k < |p'.slots| ensures WorkerOk(p', k, p'.slots[k]) {
      assert WorkerOk(p, k, p.slots[k]);
    }
  }

  lemma NameAfter(w: Worker, event: WorkerEvent)
    requires WellFormed(w.rt) && WorkerCan(w, true, event)
    ensures var name := NameOf(WorkerAfter(w, event));
            || name.None? || name == NameOf(w)
            || (event.Take? && w.mailbox[0].command.ReserveVm? && name == Some(w.mailbox[0].command.name))
  {
  }

  lemma HeadLeaves(p: Shared, i: nat, w: Worker, tapError: Option<string>)
    requires WorkerOk(p, i, w) && WorkerCan(w, true, Take(tapError))
    ensures w.mailbox[0] !in WorkerAfter(w, Take(tapError)).mailbox
  {
    forall k | 1 <= k < |w.mailbox| ensures w.mailbox[k] != w.mailbox[0] {
      assert w.mailbox[0].ticket < w.mailbox[k].ticket;
    }
  }

  lemma ReservesStaySingle(slots: seq<Worker>, i: nat, w': Worker)
    requires i < |slots| && SingleReserve(slots) && forall e :: e in w'.mailbox ==> e in slots[i].mailbox
    ensures SingleReserve(slots[i := w'])
  {
  }

  /** A slot that keeps or loses its name disturbs nobody. */
  lemma KeepingNames(slots: seq<Worker>, i: nat, w': Worker)
    requires i < |slots| && DistinctNames(slots) && FreshReserves(slots)
    requires forall e :: e in w'.mailbox ==> e in slots[i].mailbox
    requires NameOf(w').None? || NameOf(w') == NameOf(slots[i])
    ensures DistinctNames(slots[i := w']) && FreshReserves(slots[i := w'])
  {
  }

  /** A slot that takes the name of the one reservation in flight, which then is no longer queued. */
  lemma TakingName(slots: seq<Worker>, i: nat, head: Envelope, w': Worker)
    requires i < |slots| && DistinctNames(slots) && FreshReserves(slots) && SingleReserve(slots)
    requires head in slots[i].mailbox && head.command.ReserveVm? && head !in w'.mailbox
    requires forall e :: e in w'.mailbox ==> e in slots[i].mailbox
    requires NameOf(w') == Some(head.command.name)
    ensures DistinctNames(slots[i := w']) && FreshReserves(slots[i := w'])
  {
  }

  lemma NamesStayUnique(p: Shared, i: nat, event: WorkerEvent)
    requires SlotsOk(p) && UniqueNames(p) && WorkerEnabled(p, i, event)
    ensures UniqueNames(WorkerStepped(p, i, event))
  {
    var w, w' := p.slots[i], WorkerAfter(p.slots[i], event);
    assert WorkerOk(p, i, w);
    MailboxShrinks(w, event);
    NameAfter(w, event);
    ReservesStaySingle(p.slots, i, w');
    if NameOf(w').None? || NameOf(w') == NameOf(w) {
      KeepingNames(p.slots, i, w');
    } else {
      HeadLeaves(p, i, w, event.tapError);
      TakingName(p.slots, i, w.mailbox[0], w');
    }
  }

  lemma GuardStaysOk(p: Shared, i: nat, event: WorkerEvent, task: Task)
    requires GuardOk(p, task) && WorkerEnabled(p, i, event)
    ensures GuardOk(WorkerStepped(p, i, event), task)
  {
    MailboxShrinks(p.slots[i], event);
  }

  /** A slot whose queue was sent under this guard takes no reservation. */
  lemma FlushedTakesNoReserve(p: Shared, i: nat, event: WorkerEvent, since: nat)
    requires NoneReserves(p, since) && WorkerEnabled(p, i, event) && Flushed(p.slots[i], since)
    ensures event.Take? ==> !p.slots[i].mailbox[0].command.ReserveVm?
  {
    if event.Take? {
      assert p.slots[i].mailbox[0] in p.slots[i].mailbox;
    }
  }

  lemma FlushedKept(w: Worker, event: WorkerEvent, since: nat)
    requires WorkerCan(w, true, event) && Flushed(w, since)
    ensures Flushed(WorkerAfter(w, event), since)
  {
    MailboxShrinks(w, event);
  }

  lemma TrailStaysOk(p: Shared, i: nat, event: WorkerEvent, since: nat, k: nat, st: SlotStatus)
    requires SlotsOk(p) && NoneReserves(p, since) && WorkerEnabled(p, i, event)
    requires k < |p.slots| && Flushed(p.slots[k], since) && Trails(st, p.slots[k].rt.status)
    ensures var p' := WorkerStepped(p, i, event);
            Flushed(p'.slots[k], since) && Trails(st, p'.slots[k].rt.status)
  {
    if k == i {
      assert WorkerOk(p, i, p.slots[i]);
      FlushedTakesNoReserve(p, i, event, since);
      FlushedKept(p.slots[i], event, since);
      TrailsKept(st, p.slots[i], event);
    }
  }

  /** A slot takes a name only from a reservation queued for it. */
  lemma SoleNameKept(p: Shared, i: nat, event: WorkerEvent, k: nat, st: SlotStatus)
    requires SlotsOk(p) && WorkerEnabled(p, i, event) && SoleName(p, k, st)
    ensures SoleName(WorkerStepped(p, i, event), k, st)
  {
    assert WorkerOk(p, i, p.slots[i]);
    MailboxShrinks(p.slots[i], event);
    NameAfter(p.slots[i], event);
  }

  lemma HeldAlone(p: Shared, i: nat, st: SlotStatus)
    requires UniqueNames(p) && i < |p.slots| && st.name == NameOf(p.slots[i])
    ensures SoleName(p, i, st)
  {
    forall j | 0 <= j < |p.slots| && j != i && st.name.Some? ensures NameOf(p.slots[j]) != st.name {
      var lo, hi := if i < j then i else j, if i < j then j else i;
      assert NameOf(p.slots[lo]).Some? ==> NameOf(p.slots[lo]) != NameOf(p.slots[hi]);
    }
  }

  lemma ScanStaysOk(p: Shared, i: nat, event: WorkerEvent, since: nat, seen: seq<SlotStatus>)
    requires SlotsOk(p) && NoneReserves(p, since) && WorkerEnabled(p, i, event) && ScanOk(p, since, seen)
    ensures ScanOk(WorkerStepped(p, i, event), since, seen)
  {
    forall k | 0 <= k < |seen|
      ensures var p' := WorkerStepped(p, i, event);
              Flushed(p'.slots[k], since) && Trails(seen[k], p'.slots[k].rt.status)
    {
      TrailStaysOk(p, i, event, since, k, seen[k]);
    }
    forall k | 0 <= k < |seen| ensures SoleName(WorkerStepped(p, i, event), k, seen[k]) {
      SoleNameKept(p, i, event, k, seen[k]);
    }
  }

  lemma ClearStaysOk(p: Shared, i: nat, event: WorkerEvent, since: nat, name: string)
    requires SlotsOk(p) && NoneReserves(p, since) && WorkerEnabled(p, i, event) && ClearOf(p, since, name)
    ensures ClearOf(WorkerStepped(p, i, event), since, name)
  {
    assert WorkerOk(p, i, p.slots[i]);
    FlushedTakesNoReserve(p, i, event, since);
    FlushedKept(p.slots[i], event, since);
  }

  lemma BookingStaysOk(p: Shared, i: nat, event: WorkerEvent, job: Job, booking: Booking, ready: bool)
    requires SlotsOk(p) && WorkerEnabled(p, i, event) && BookingOk(p, job, booking, ready)
    ensures BookingOk(WorkerStepped(p, i, event), job, booking, ready)
  {
    assert WorkerOk(p, i, p.slots[i]);
  }

  lemma AllocationStaysOk(p: Shared, i: nat, event: WorkerEvent, task: Task)
    requires SlotsOk(p) && GuardOk(p, task) && JobFits(task.job, task.pc) && AllocationOk(p, task) && WorkerEnabled(p, i, event)
    ensures AllocationOk(WorkerStepped(p, i, event), task)
  {
    match task.pc {
      case FindByName(seen) => ScanStaysOk(p, i, event, task.since, seen);
      case FindEmpty(_) => ClearStaysOk(p, i, event, task.since, task.job.name);
      case Reserve(_) => if task.call.None? { ClearStaysOk(p, i, event, task.since, task.job.name); }
      case _ =>
    }
  }

  lemma PoolWorkStaysOk(p: Shared, i: nat, event: WorkerEvent, task: Task)
    requires SlotsOk(p) && GuardOk(p, task) && PoolWorkOk(p, task) && WorkerEnabled(p, i, event)
    ensures PoolWorkOk(WorkerStepped(p, i, event), task)
  {
    match task.pc {
      case PopTail(slot) => TrailStaysOk(p, i, event, task.since, slot, p.slots[slot].rt.status);
      case JoinTail(popped) => assert WorkerOk(WorkerStepped(p, i, event), |p.slots|, popped);
      case JoinDrained(popped) => assert WorkerOk(WorkerStepped(p, i, event), |p.slots|, popped);
      case _ =>
    }
  }

  lemma PcStaysOk(p: Shared, i: nat, event: WorkerEvent, task: Task)
    requires SlotsOk(p) && GuardOk(p, task) && PcOk(p, task) && WorkerEnabled(p, i, event)
    ensures PcOk(WorkerStepped(p, i, event), task)
  {
    AllocationStaysOk(p, i, event, task);
    PoolWorkStaysOk(p, i, event, task);
    if BookingOf(task.pc).Some? {
      BookingStaysOk(p, i, event, task.job, BookingOf(task.pc).value.0, BookingOf(task.pc).value.1);
    }
    if TargetOf(task.pc).Some? {
      TrailStaysOk(p, i, event, task.since, TargetOf(task.pc).value.slot, TargetOf(task.pc).value);
      SoleNameKept(p, i, event, TargetOf(task.pc).value.slot, TargetOf(task.pc).value);
    }
  }

  /** An answer received earlier stays true. */
  lemma StatusStaysOk(p: Shared, i: nat, event: WorkerEvent, task: Task, slot: nat, worker: nat, st: SlotStatus)
    requires SlotsOk(p) && GuardOk(p, task) && WorkerEnabled(p, i, event) && !GuardOf(task).NoGuard?
    requires task.pc.Reserve? ==> task.call.Some?
    requires slot < |p.slots| && StatusOk(p, task, slot, worker, st)
    ensures StatusOk(WorkerStepped(p, i, event), task, slot, worker, st)
  {
    if task.pc.Reserve? {
      if slot == i {
        assert WorkerOk(p, i, p.slots[i]);
        SinceKept(st, p.slots[i], event);
      }
    } else {
      TrailStaysOk(p, i, event, task.since, slot, st);
      SoleNameKept(p, i, event, slot, st);
    }
  }

  /** The head of a queue has the smallest ticket, so what is left was sent later. */
  lemma RestIsFlushed(p: Shared, i: nat, w: Worker, tapError: Option<string>, since: nat)
    requires WorkerOk(p, i, w) && WorkerCan(w, true, Take(tapError)) && since <= w.mailbox[0].ticket
    ensures Flushed(WorkerAfter(w, Take(tapError)), since)
  {
    forall e | e in w.mailbox[1..] ensures since <= e.ticket {
      var k :| 1 <= k < |w.mailbox| && w.mailbox[k] == e;
      assert w.mailbox[0].ticket < w.mailbox[k].ticket;
    }
  }

  /** The command at the head of the queue is the one the task is waiting on. */
  lemma CallAtHead(p: Shared, i: nat, tapError: Option<string>, task: Task)
    requires CallOk(p, task) && WorkerEnabled(p, i, Take(tapError))
    requires task.call.Some? && p.slots[i].mailbox[0].ticket == task.call.value.ticket
    ensures i == task.call.value.slot && task.since <= p.slots[i].mailbox[0].ticket
    ensures RequestAt(task, |p.slots|) == Some((i, p.slots[i].mailbox[0].command))
  {
    assert p.slots[i].mailbox[0] in p.slots[i].mailbox;
  }

  lemma AnswerTells(p: Shared, i: nat, tapError: Option<string>, task: Task)
    requires PcOk(p, task) && WorkerEnabled(p, i, Take(tapError)) && WorkerOk(p, i, p.slots[i])
    requires RequestAt(task, |p.slots|) == Some((i, p.slots[i].mailbox[0].command))
    requires ReplyTo(p.slots[i].rt, p.slots[i].mailbox[0].command, tapError).Ok?
    ensures StatusTells(task, p.slots[i].id, ReplyTo(p.slots[i].rt, p.slots[i].mailbox[0].command, tapError).value)
  {
    hide Flushed, PoolWorkOk;
    if task.pc.FindByName? {
      assert AllocationOk(p, task);
      forall j | 0 <= j < |task.pc.seen| && p.slots[i].rt.status.name.Some? ensures task.pc.seen[j].name != p.slots[i].rt.status.name {
        assert SoleName(p, j, task.pc.seen[j]);
      }
    }
  }

  /** The answer given to a task is true of the slot at the moment it is given. */
  lemma AnswerIsOk(p: Shared, i: nat, tapError: Option<string>, task: Task)
    requires SlotsOk(p) && UniqueNames(p) && PcOk(p, task) && CallOk(p, task) && WorkerEnabled(p, i, Take(tapError))
    requires task.call.Some? && p.slots[i].mailbox[0].ticket == task.call.value.ticket
    requires ReplyTo(p.slots[i].rt, p.slots[i].mailbox[0].command, tapError).Ok?
    ensures i == task.call.value.slot
    ensures StatusOk(WorkerStepped(p, i, Take(tapError)), task, i, p.slots[i].id,
                     ReplyTo(p.slots[i].rt, p.slots[i].mailbox[0].command, tapError).value)
  {
    var w := p.slots[i];
    CallAtHead(p, i, tapError, task);
    assert WorkerOk(p, i, w);
    RestIsFlushed(p, i, w, tapError, task.since);
    NamesStayUnique(p, i, Take(tapError));
    AnswerTells(p, i, tapError, task);
    hide PcOk, CallOk, SlotsOk, UniqueNames, StatusTells, SoleName, Flushed;
    var st := Handled(w.rt, w.mailbox[0].command, tapError).status;
    HeldAlone(WorkerStepped(p, i, Take(tapError)), i, st);
  }

  /** So is a refusal. */
  lemma ErrorIsOk(p: Shared, i: nat, tapError: Option<string>, task: Task)
    requires SlotsOk(p) && PcOk(p, task) && CallOk(p, task) && WorkerEnabled(p, i, Take(tapError))
    requires task.call.Some? && p.slots[i].mailbox[0].ticket == task.call.value.ticket
    requires ReplyTo(p.slots[i].rt, p.slots[i].mailbox[0].command, tapError).Err?
    ensures i == task.call.value.slot
    ensures ErrorOk(WorkerStepped(p, i, Take(tapError)), task, task.call.value,
                    ReplyTo(p.slots[i].rt, p.slots[i].mailbox[0].command, tapError).error)
  {
    assert p.slots[i].mailbox[0] in p.slots[i].mailbox;
    assert WorkerOk(p, i, p.slots[i]);
  }

  lemma LostIsOk(p: Shared, i: nat, event: WorkerEvent, task: Task)
    requires CallOk(p, task) && WorkerEnabled(p, i, event) && (event.Leave? || event.Die?)
    requires task.call.Some? && task.call.value.ticket in Tickets(p.slots[i].mailbox)
    ensures i == task.call.value.slot && !WorkerStepped(p, i, event).slots[i].task.Running?
  {
  }

  lemma NewAnswerIsOk(p: Shared, i: nat, event: WorkerEvent, task: Task)
    requires SlotsOk(p) && UniqueNames(p) && TaskOk(p, task) && WorkerEnabled(p, i, event)
    requires task.call.Some? && task.call.value.ticket in NewAnswers(p.slots[i], event)
    ensures AnswerOk(WorkerStepped(p, i, event), task, task.call.value, NewAnswers(p.slots[i], event)[task.call.value.ticket])
  {
    match event {
      case Take(tapError) =>
        if ReplyTo(p.slots[i].rt, p.slots[i].mailbox[0].command, tapError).Ok? {
          AnswerIsOk(p, i, tapError, task);
        } else {
          ErrorIsOk(p, i, tapError, task);
        }
      case Leave => LostIsOk(p, i, event, task);
      case Die => LostIsOk(p, i, event, task);
    }
  }

  lemma ErrorStaysOk(p: Shared, i: nat, event: WorkerEvent, task: Task, call: Call, error: PoolError)
    requires SlotsOk(p) && WorkerEnabled(p, i, event) && call.slot < |p.slots| && ErrorOk(p, task, call, error)
    ensures ErrorOk(WorkerStepped(p, i, event), task, call, error)
  {
    if call.slot == i {
      assert WorkerOk(p, i, p.slots[i]);
      SinceKept(p.slots[i].rt.status, p.slots[i], event);
    }
  }

  lemma OldAnswerStaysOk(p: Shared, i: nat, event: WorkerEvent, task: Task, answer: Answer)
    requires SlotsOk(p) && TaskOk(p, task) && WorkerEnabled(p, i, event)
    requires task.call.Some? && AnswerOk(p, task, task.call.value, answer)
    ensures AnswerOk(WorkerStepped(p, i, event), task, task.call.value, answer)
  {
    match answer {
      case Answer(worker, Ok(st)) => StatusStaysOk(p, i, event, task, task.call.value.slot, worker, st);
      case Answer(_, Err(error)) => ErrorStaysOk(p, i, event, task, task.call.value, error);
      case Lost =>
    }
  }

  lemma CallStaysOk(p: Shared, i: nat, event: WorkerEvent, task: Task)
    requires SlotsOk(p) && UniqueNames(p) && TaskOk(p, task) && WorkerEnabled(p, i, event)
    ensures CallOk(WorkerStepped(p, i, event), task)
  {
    if task.call.Some? {
      var call := task.call.value;
      MailboxShrinks(p.slots[i], event);
      if call.ticket in NewAnswers(p.slots[i], event) {
        NewAnswerIsOk(p, i, event, task);
      } else if call.ticket in p.answers {
        OldAnswerStaysOk(p, i, event, task, p.answers[call.ticket]);
      }
    }
  }

  lemma NewAnswersOk(p: Shared, i: nat, w: Worker, event: WorkerEvent)
    requires WorkerOk(p, i, w) && WorkerCan(w, true, event)
    ensures forall ticket :: ticket in NewAnswers(w, event) ==> ticket < p.nextTicket && FromWorker(NewAnswers(w, event)[ticket])
  {
  }

  lemma WorkerStepKeepsPool(p: Shared, i: nat, event: WorkerEvent)
    requires PoolOk(p) && WorkerEnabled(p, i, event)
    ensures PoolOk(WorkerStepped(p, i, event))
  {
    SlotsStayOk(p, i, event);
    NamesStayUnique(p, i, event);
    NewAnswersOk(p, i, p.slots[i], event);
  }

  lemma WorkerStepKeepsTask(p: Shared, i: nat, event: WorkerEvent, task: Task)
    requires PoolOk(p) && TaskOk(p, task) && WorkerEnabled(p, i, event)
    ensures TaskOk(WorkerStepped(p, i, event), task)
  {
    hide CallOk, GuardOk, PcOk, WorkerStepped;
    GuardStaysOk(p, i, event, task);
    CallStaysOk(p, i, event, task);
    PcStaysOk(p, i, event, task);
  }

  lemma WorkerStepKeepsInv(s: System, i: nat, event: WorkerEvent)
    requires Inv(s) && Enabled(s, WorkerStep(i, event))
    ensures Inv(Step(s, WorkerStep(i, event)))
  {
    hide TaskOk, SlotsOk, UniqueNames, WorkerStepped;
    WorkerStepKeepsPool(s.pool, i, event);
    forall t | t in s.tasks ensures TaskOk(WorkerStepped(s.pool, i, event), s.tasks[t]) {
      WorkerStepKeepsTask(s.pool, i, event, s.tasks[t]);
    }
  }
}
