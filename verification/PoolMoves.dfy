/** Taking the lock, receiving answers, deciding and moving the pool keep the invariant. */
module PoolMoves {
  import opened Slots
  import opened SlotSteps
  import opened Protocol
  import opened ProtocolInvariant
  import opened WorkerSteps
  import opened TaskSteps

  // ---------- Receiving ----------

  lemma BookingFromReply(p: Shared, task: Task, worker: nat, st: SlotStatus)
    requires SlotsOk(p) && TaskOk(p, task) && task.call.Some? && task.pc.Reserve?
    requires StatusOk(p, task, task.call.value.slot, worker, st)
    ensures BookingOk(p, task.job, Booking(st.slot, worker, st.generation), false)
  {
    assert WorkerOk(p, st.slot, p.slots[st.slot]);
  }

  lemma ReadyFromReply(p: Shared, task: Task, worker: nat, st: SlotStatus)
    requires SlotsOk(p) && TaskOk(p, task) && task.call.Some? && task.pc.ReadyAsk?
    requires StatusOk(p, task, task.call.value.slot, worker, st)
    ensures BookingOk(p, task.job, task.pc.booking, task.pc.booted.Some? || st.pid.Some?)
  {
  }

  lemma ScanExtends(p: Shared, task: Task, seen: seq<SlotStatus>, worker: nat, st: SlotStatus)
    requires TaskOk(p, task) && task.call.Some? && task.pc == FindByName(seen)
    requires StatusOk(p, task, task.call.value.slot, worker, st)
    ensures ScanOk(p, task.since, seen + [st]) && NumberedFrom0(seen + [st])
  {
  }

  lemma EmptyTailIsUnnamed(p: Shared, task: Task, worker: nat, st: SlotStatus)
    requires TaskOk(p, task) && task.call.Some? && task.pc.AskTail? && st.state.Empty?
    requires StatusOk(p, task, task.call.value.slot, worker, st)
    ensures p.slots[task.pc.slot].rt.status.name.None?
  {
  }

  lemma LookupReceived(p: Shared, task: Task, worker: nat, st: SlotStatus)
    requires TaskOk(p, task) && task.call.Some? && task.pc.FindByName?
    requires StatusOk(p, task, task.call.value.slot, worker, st)
    ensures TaskOk(p, task.(pc := FindByName(task.pc.seen + [st]), call := None))
  {
    ScanExtends(p, task, task.pc.seen, worker, st);
  }

  lemma SearchReceived(p: Shared, task: Task, worker: nat, st: SlotStatus)
    requires TaskOk(p, task) && task.call.Some? && task.pc.FindEmpty?
    requires StatusOk(p, task, task.call.value.slot, worker, st)
    ensures TaskOk(p, task.(pc := FindEmpty(task.pc.seen + [st]), call := None))
  {
  }

  lemma TailReceived(p: Shared, task: Task, worker: nat, st: SlotStatus)
    requires TaskOk(p, task) && task.call.Some? && task.pc.AskTail?
    requires StatusOk(p, task, task.call.value.slot, worker, st)
    ensures TaskOk(p, task.(pc := OnStatus(task, worker, st), call := None))
  {
    if st.state.Empty? {
      EmptyTailIsUnnamed(p, task, worker, st);
    } else {
      IdleTaskIsOk(p, task.(pc := OnStatus(task, worker, st), call := None));
    }
  }

  lemma ReserveReceived(p: Shared, task: Task, worker: nat, st: SlotStatus)
    requires SlotsOk(p) && TaskOk(p, task) && task.call.Some? && task.pc.Reserve?
    requires StatusOk(p, task, task.call.value.slot, worker, st)
    ensures TaskOk(p, task.(pc := OnStatus(task, worker, st), call := None))
  {
    hide SlotsOk, CallOk, BookingOk, StatusOk;
    BookingFromReply(p, task, worker, st);
    IdleTaskIsOk(p, task.(pc := OnStatus(task, worker, st), call := None));
  }

  lemma ReadyReceived(p: Shared, task: Task, worker: nat, st: SlotStatus)
    requires SlotsOk(p) && TaskOk(p, task) && task.call.Some? && task.pc.ReadyAsk?
    requires StatusOk(p, task, task.call.value.slot, worker, st)
    ensures TaskOk(p, task.(pc := OnStatus(task, worker, st), call := None))
  {
    hide SlotsOk, CallOk, BookingOk, StatusOk;
    ReadyFromReply(p, task, worker, st);
    IdleTaskIsOk(p, task.(pc := OnStatus(task, worker, st), call := None));
  }

  /** The answer that ends a create, a cleanup or a delete. */
  lemma EndReceived(p: Shared, task: Task, worker: nat, st: SlotStatus)
    requires TaskOk(p, task) && task.call.Some? && (task.pc.Mark? || task.pc.Cleanup? || task.pc.Release?)
    requires StatusOk(p, task, task.call.value.slot, worker, st)
    ensures TaskOk(p, task.(pc := OnStatus(task, worker, st), call := None))
  {
    hide AnswerOk, BookingOk, NoneReserves;
    IdleTaskIsOk(p, task.(pc := OnStatus(task, worker, st), call := None));
  }

  lemma StatusReceived(p: Shared, task: Task, worker: nat, st: SlotStatus)
    requires SlotsOk(p) && TaskOk(p, task) && task.call.Some?
    requires StatusOk(p, task, task.call.value.slot, worker, st)
    ensures TaskOk(p, task.(pc := OnStatus(task, worker, st), call := None))
  {
    CallsFromHere(p, task);
    hide TaskOk, StatusOk, SlotsOk;
    match task.pc {
      case FindByName(_) => LookupReceived(p, task, worker, st);
      case FindEmpty(_) => SearchReceived(p, task, worker, st);
      case Reserve(_) => ReserveReceived(p, task, worker, st);
      case ReadyAsk(_, _) => ReadyReceived(p, task, worker, st);
      case Mark(_, _) => EndReceived(p, task, worker, st);
      case Cleanup(_, _) => EndReceived(p, task, worker, st);
      case Release(_) => EndReceived(p, task, worker, st);
      case AskTail(_) => TailReceived(p, task, worker, st);
    }
  }

  /** Where a program can be while it waits for an answer. */
  lemma CallsFromHere(p: Shared, task: Task)
    requires TaskOk(p, task) && task.call.Some?
    ensures task.pc.FindByName? || task.pc.FindEmpty? || task.pc.Reserve? || task.pc.ReadyAsk? || task.pc.Mark? || task.pc.Cleanup?
            || task.pc.Release? || task.pc.AskTail?
  {
    hide PcOk, GuardOk, AnswerOk;
  }

  lemma ErrorReceived(p: Shared, task: Task, error: PoolError)
    requires TaskOk(p, task) && task.call.Some?
    ensures TaskOk(p, task.(pc := OnError(task, error), call := None))
    ensures GuardOf(task.(pc := OnError(task, error), call := None)).NoGuard?
  {
    IdleTaskIsOk(p, task.(pc := OnError(task, error), call := None));
  }

  lemma AnswerReceived(p: Shared, task: Task, answer: Answer)
    requires SlotsOk(p) && TaskOk(p, task) && task.call.Some?
    requires answer.Answer? && answer.reply.Ok? ==> StatusOk(p, task, task.call.value.slot, answer.worker, answer.reply.value)
    ensures TaskOk(p, task.(pc := OnAnswer(task, answer), call := None))
  {
    match answer {
      case Lost => ErrorReceived(p, task, ChannelClosed);
      case Answer(worker, Ok(st)) => StatusReceived(p, task, worker, st);
      case Answer(_, Err(error)) => ErrorReceived(p, task, error);
    }
  }

  lemma GuardAfterAnswer(task: Task, answer: Answer)
    ensures var next := task.(pc := OnAnswer(task, answer), call := None);
            GuardOf(next).NoGuard? || GuardOf(next) == GuardOf(task)
  {
  }

  lemma ReceiveKeepsInv(s: System, t: nat)
    requires Inv(s) && Enabled(s, Receive(t))
    ensures Inv(Step(s, Receive(t)))
  {
    hide OnAnswer, GuardOk, PcOk, UniqueNames, SlotsOk;
    var task := s.tasks[t];
    assert TaskOk(s.pool, task);
    var answer := s.pool.answers[task.call.value.ticket];
    AnswerReceived(s.pool, task, answer);
    GuardAfterAnswer(task, answer);
    TaskReplaced(s, t, task.(pc := OnAnswer(task, answer), call := None));
  }

  // ---------- Arriving, cancelling, waiting ----------

  lemma ArriveKeepsInv(s: System, t: nat, job: Job)
    requires Inv(s) && Enabled(s, Arrive(t, job))
    ensures Inv(Step(s, Arrive(t, job)))
  {
    var task := Task(job, Start, None, 0);
    IdleTaskIsOk(s.pool, task);
    TaskReplaced(s, t, task);
  }

  lemma CancelKeepsInv(s: System, t: nat)
    requires Inv(s) && Enabled(s, Cancel(t))
    ensures Inv(Step(s, Cancel(t)))
  {
    hide CallOk, PcOk, PoolOk;
    var task := s.tasks[t].(pc := Done(Cancelled), call := None);
    assert TaskOk(s.pool, s.tasks[t]);
    IdleTaskIsOk(s.pool, task);
    TaskReplaced(s, t, task);
  }

  /** The workers do not look at the clock or at the answers. */
  lemma SameWorkers(p: Shared, p': Shared)
    requires SlotsOk(p) && p'.slots == p.slots && p'.nextWorker == p.nextWorker && p'.nextTicket == p.nextTicket && p'.shutdown == p.shutdown
    ensures SlotsOk(p')
  {
    forall i | 0 <= i < |p'.slots| ensures WorkerOk(p', i, p'.slots[i]) {
      assert WorkerOk(p, i, p.slots[i]);
    }
  }

  lemma SamePool(p: Shared, p': Shared)
    requires PoolOk(p) && p'.slots == p.slots && p'.nextWorker == p.nextWorker && p'.nextTicket == p.nextTicket
    requires p'.shutdown == p.shutdown && p'.config == p.config && AnswersOk(p')
    ensures PoolOk(p')
  {
    SameWorkers(p, p');
  }

  lemma Assemble(s: System)
    requires PoolOk(s.pool) && Exclusive(s) && TasksOk(s)
    ensures Inv(s)
  {
  }

  /** The pool some time later. */
  function Later(p: Shared, time: nat): Shared {
    p.(clock := p.clock + time)
  }

  lemma PassKeepsTasks(s: System, time: nat)
    requires TasksOk(s)
    ensures TasksOk(System(Later(s.pool, time), s.tasks))
  {
    forall t | t in s.tasks ensures TaskOk(Later(s.pool, time), s.tasks[t]) {
      PassKeepsTask(s.pool, time, s.tasks[t]);
    }
  }

  lemma PassKeepsInv(s: System, time: nat)
    requires Inv(s)
    ensures Inv(Step(s, Pass(time)))
  {
    var s' := System(Later(s.pool, time), s.tasks);
    PassKeepsTasks(s, time);
    SamePool(s.pool, s'.pool);
    Assemble(s');
    assert Step(s, Pass(time)) == s';
  }

  lemma PassKeepsTask(p: Shared, time: nat, task: Task)
    requires TaskOk(p, task)
    ensures TaskOk(Later(p, time), task)
  {
    PassKeepsCall(p, time, task);
    PassKeepsAllocation(p, time, task);
    PassKeepsPoolWork(p, time, task);
    hide CallOk, AllocationOk, PoolWorkOk;
  }

  lemma PassKeepsCall(p: Shared, time: nat, task: Task)
    requires CallOk(p, task)
    ensures CallOk(Later(p, time), task)
  {
  }

  lemma PassKeepsAllocation(p: Shared, time: nat, task: Task)
    requires JobFits(task.job, task.pc) && AllocationOk(p, task)
    ensures AllocationOk(Later(p, time), task)
  {
  }

  /** What is out of its cooldown stays so. */
  lemma PassKeepsPoolWork(p: Shared, time: nat, task: Task)
    requires PoolWorkOk(p, task)
    ensures PoolWorkOk(Later(p, time), task)
  {
    var p' := Later(p, time);
    match task.pc {
      case JoinTail(popped) => assert WorkerOk(p', |p'.slots|, popped);
      case JoinDrained(popped) => assert WorkerOk(p', |p'.slots|, popped);
      case _ =>
    }
  }

  // ---------- Who moves ----------

  /** The task that takes a step. */
  function ActingTask(a: Action): Option<nat> {
    match a
    case Observe(_) => None
    case WorkerStep(_, _) => None
    case Pass(_) => None
    case _ => Some(a.task)
  }

  lemma OnlyTheActorMoves(s: System, a: Action, u: nat)
    requires Enabled(s, a) && u in Step(s, a).tasks && ActingTask(a) != Some(u)
    ensures u in s.tasks && Step(s, a).tasks[u] == s.tasks[u]
  {
  }

  /** No task ever disappears, and the one that takes a step is there after it. */
  lemma TasksRemain(s: System, a: Action, t: nat)
    requires Enabled(s, a) && (t in s.tasks || ActingTask(a) == Some(t))
    ensures t in Step(s, a).tasks
  {
  }

  // ---------- The lock ----------

  /** Everything queued was sent before now. */
  lemma NothingFromTheFuture(p: Shared)
    requires SlotsOk(p)
    ensures NoneReserves(p, p.nextTicket)
  {
    forall i, e | 0 <= i < |p.slots| && e in p.slots[i].mailbox ensures e.ticket < p.nextTicket {
      assert WorkerOk(p, i, p.slots[i]);
    }
  }

  lemma NoCallYet(p: Shared, task: Task)
    requires CallOk(p, task) && (Entry(task).Some? || CanDecide(p, task))
    ensures task.call.None?
  {
    hide AnswerOk;
  }

  /** What a task without the lock knows is what it needs to go on with the lock. */
  lemma EnteredPc(p: Shared, task: Task, since: nat)
    requires JobFits(task.job, task.pc) && Entry(task).Some?
    requires BookingOf(task.pc).Some? ==> BookingOk(p, task.job, BookingOf(task.pc).value.0, BookingOf(task.pc).value.1)
    ensures PcOk(p, task.(pc := Entry(task).value.1, since := since))
  {
  }

  lemma EnteredTaskIsOk(p: Shared, task: Task)
    requires SlotsOk(p) && TaskOk(p, task) && Entry(task).Some?
    ensures TaskOk(p, task.(pc := Entry(task).value.1, since := p.nextTicket))
  {
    NothingFromTheFuture(p);
    NoCallYet(p, task);
    EnteredPc(p, task, p.nextTicket);
  }

  lemma AcquireKeepsInv(s: System, t: nat)
    requires Inv(s) && Enabled(s, Acquire(t))
    ensures Inv(Step(s, Acquire(t)))
  {
    var task := s.tasks[t];
    EnteredTaskIsOk(s.pool, task);
    var entered := task.(pc := Entry(task).value.1, since := s.pool.nextTicket);
    EntryGuard(task, s.pool.nextTicket);
    assert Step(s, Acquire(t)) == WithTask(s, t, entered);
    assert Exclusive(WithTask(s, t, entered));
  }

  lemma EntryGuard(task: Task, since: nat)
    requires Entry(task).Some?
    ensures GuardOf(task.(pc := Entry(task).value.1, since := since)) == Entry(task).value.0
    ensures GuardOf(task) == NoGuard
  {
  }

  // ---------- A popped worker ----------

  lemma AnswersKeepTask(p: Shared, added: map<nat, Answer>, task: Task)
    requires TaskOk(p, task) && GuardOf(task).NoGuard?
    ensures TaskOk(p.(answers := p.answers + added), task)
  {
    assert task.call.None?;
  }

  lemma VacantStays(w: Worker, event: WorkerEvent)
    requires WellFormed(w.rt) && WorkerCan(w, true, event) && Vacant(w)
    ensures Vacant(WorkerAfter(w, event))
  {
    NameAfter(w, event);
    MailboxShrinks(w, event);
  }

  lemma PoppedTaskStaysOk(p: Shared, task: Task, event: WorkerEvent, answers: map<nat, Answer>, pc: Pc)
    requires TaskOk(p, task) && (task.pc.JoinTail? || task.pc.JoinDrained?) && WorkerCan(task.pc.popped, p.shutdown, event)
    requires pc == if task.pc.JoinTail? then JoinTail(WorkerAfter(task.pc.popped, event)) else JoinDrained(WorkerAfter(task.pc.popped, event))
    ensures TaskOk(p.(answers := answers), task.(pc := pc))
  {
    hide AnswerOk, TargetOk, BookingOk, ScanOk, ClearOf;
    var p' := p.(answers := answers);
    WorkerStaysOk(p, |p.slots|, task.pc.popped, event);
    if task.pc.JoinTail? {
      VacantStays(task.pc.popped, event);
    }
    assert WorkerOk(p', |p'.slots|, WorkerAfter(task.pc.popped, event));
  }

  /** What a writer adds to the answers does not concern the others. */
  lemma OthersKeepTheirs(s: System, t: nat, added: map<nat, Answer>)
    requires Exclusive(s) && TasksOk(s) && t in s.tasks && GuardOf(s.tasks[t]).WriteGuard?
    ensures forall u :: u in s.tasks && u != t ==> TaskOk(s.pool.(answers := s.pool.answers + added), s.tasks[u])
  {
    forall u | u in s.tasks && u != t ensures TaskOk(s.pool.(answers := s.pool.answers + added), s.tasks[u]) {
      AnswersKeepTask(s.pool, added, s.tasks[u]);
    }
  }

  function PoppedNext(task: Task, event: WorkerEvent): Task
    requires (task.pc.JoinTail? || task.pc.JoinDrained?) && WorkerCan(task.pc.popped, true, event)
  {
    var w := WorkerAfter(task.pc.popped, event);
    task.(pc := if task.pc.JoinTail? then JoinTail(w) else JoinDrained(w))
  }

  lemma PoppedStepIs(s: System, t: nat, event: WorkerEvent)
    requires Enabled(s, PoppedStep(t, event))
    ensures Step(s, PoppedStep(t, event))
         == System(s.pool.(answers := s.pool.answers + NewAnswers(s.tasks[t].pc.popped, event)), s.tasks[t := PoppedNext(s.tasks[t], event)])
  {
  }

  lemma PoppedStepKeepsTasks(s: System, t: nat, event: WorkerEvent)
    requires Exclusive(s) && TasksOk(s) && Enabled(s, PoppedStep(t, event))
    ensures TasksOk(System(s.pool.(answers := s.pool.answers + NewAnswers(s.tasks[t].pc.popped, event)),
                           s.tasks[t := PoppedNext(s.tasks[t], event)]))
  {
    hide WorkerAfter, NewAnswers, TaskOk;
    var task, p := s.tasks[t], s.pool;
    assert TaskOk(p, task);
    var added := NewAnswers(task.pc.popped, event);
    PoppedTaskStaysOk(p, task, event, p.answers + added, PoppedNext(task, event).pc);
    OthersKeepTheirs(s, t, added);
  }

  lemma PoppedStepKeepsLock(s: System, t: nat, event: WorkerEvent)
    requires Exclusive(s) && Enabled(s, PoppedStep(t, event))
    ensures Exclusive(Step(s, PoppedStep(t, event)))
  {
    assert GuardOf(Step(s, PoppedStep(t, event)).tasks[t]) == GuardOf(s.tasks[t]);
  }

  lemma PoppedStepKeepsInv(s: System, t: nat, event: WorkerEvent)
    requires Inv(s) && Enabled(s, PoppedStep(t, event))
    ensures Inv(Step(s, PoppedStep(t, event)))
  {
    hide Step, SlotsOk, UniqueNames, CallOk, GuardOk, BookingOk;
    PoppedStepKeepsTasks(s, t, event);
    PoppedStepKeepsLock(s, t, event);
    PoppedStepIs(s, t, event);
    assert TaskOk(s.pool, s.tasks[t]);
    NewAnswersOk(s.pool, |s.pool.slots|, s.tasks[t].pc.popped, event);
    SamePool(s.pool, Step(s, PoppedStep(t, event)).pool);
    Assemble(Step(s, PoppedStep(t, event)));
  }
}
