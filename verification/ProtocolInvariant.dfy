/**
 What every reachable state of the pool satisfies, and that every step keeps it.
 */
module ProtocolInvariant {
  import opened Slots
  import opened SlotSteps
  import opened Decimal
  import opened Protocol

  // ---------- Workers ----------

  ghost predicate MailboxOk(mailbox: seq<Envelope>, next: nat) {
    && |mailbox| <= CHANNEL_CAPACITY
    && (forall a :: 0 <= a < |mailbox| ==> mailbox[a].ticket < next)
    && (forall a, b :: 0 <= a < b < |mailbox| ==> mailbox[a].ticket < mailbox[b].ticket)
  }

  /** A worker of slot `i`, in the vector or popped from it. */
  ghost predicate WorkerOk(p: Shared, i: nat, w: Worker) {
    && WellFormed(w.rt)
    && w.rt.status.slot == i
    && w.id < p.nextWorker
    && MailboxOk(w.mailbox, p.nextTicket)
    && (!w.task.Running? ==> w.mailbox == [])
    && (w.task.Left? ==> p.shutdown)
    && (w.rt.status.name.Some? ==> w.rt.status.tap == Some(TapName(i)))
    && (forall e :: e in w.mailbox && e.command.ReserveVm? ==> e.command.tap == TapName(i))
  }

  ghost predicate SlotsOk(p: Shared) {
    forall i :: 0 <= i < |p.slots| ==> WorkerOk(p, i, p.slots[i])
  }

  // ---------- The lock ----------

  ghost predicate Exclusive(s: System) {
    forall t, u :: t in s.tasks && u in s.tasks && t != u && GuardOf(s.tasks[t]).WriteGuard? ==> GuardOf(s.tasks[u]).NoGuard?
  }

  // ---------- Names ----------

  /** The VM name a slot carries: that of a booting, running or failed VM. */
  function NameOf(w: Worker): Option<string> {
    w.rt.status.name
  }

  /** A slot carries the name, or a reservation that would give it the name is queued there. */
  ghost predicate Claims(w: Worker, name: string) {
    NameOf(w) == Some(name) || exists e :: e in w.mailbox && e.command.ReserveVm? && e.command.name == name
  }

  ghost predicate DistinctNames(slots: seq<Worker>) {
    forall i, j :: 0 <= i < j < |slots| && NameOf(slots[i]).Some? ==> NameOf(slots[i]) != NameOf(slots[j])
  }

  /** No slot carries the name of a reservation that is still queued. */
  ghost predicate FreshReserves(slots: seq<Worker>) {
    forall i, j, e :: 0 <= i < |slots| && 0 <= j < |slots| && e in slots[i].mailbox && e.command.ReserveVm? ==>
      NameOf(slots[j]) != Some(e.command.name)
  }

  /** At most one reservation is in flight in the whole pool. */
  ghost predicate SingleReserve(slots: seq<Worker>) {
    forall i, j, e, f ::
      (0 <= i < |slots| && 0 <= j < |slots| && e in slots[i].mailbox && f in slots[j].mailbox
       && e.command.ReserveVm? && f.command.ReserveVm?) ==> i == j && e == f
  }

  ghost predicate UniqueNames(p: Shared) {
    DistinctNames(p.slots) && FreshReserves(p.slots) && SingleReserve(p.slots)
  }

  // ---------- What a task knows ----------

  /** The status `st` was reported, nothing was reserved since: either still that reservation or none. */
  ghost predicate Trails(st: SlotStatus, cur: SlotStatus) {
    Since(st, cur) && (st.generation < cur.generation ==> cur.name.None?)
  }

  /** Everything queued at the slot was sent at ticket `since` or later. */
  ghost predicate Flushed(w: Worker, since: nat) {
    forall e :: e in w.mailbox ==> since <= e.ticket
  }

  /** No reservation is in flight that was sent at ticket `since` or later. */
  ghost predicate NoneReserves(p: Shared, since: nat) {
    forall i, e :: 0 <= i < |p.slots| && e in p.slots[i].mailbox && e.command.ReserveVm? ==> e.ticket < since
  }

  /** Nobody but slot `i` carries the name reported for it, and no reservation of it is queued. */
  ghost predicate SoleName(p: Shared, i: nat, st: SlotStatus) {
    st.name.Some? ==>
      && (forall j :: 0 <= j < |p.slots| && j != i ==> NameOf(p.slots[j]) != st.name)
      && (forall j, e :: 0 <= j < |p.slots| && e in p.slots[j].mailbox && e.command.ReserveVm? ==> e.command.name != st.name.value)
  }

  /** No name was reported twice. */
  ghost predicate NamesDiffer(seen: seq<SlotStatus>) {
    forall i, j :: 0 <= i < j < |seen| && seen[i].name.Some? ==> seen[i].name != seen[j].name
  }

  ghost predicate ScanOk(p: Shared, since: nat, seen: seq<SlotStatus>) {
    && |seen| <= |p.slots|
    && (forall i :: 0 <= i < |seen| ==> Flushed(p.slots[i], since) && Trails(seen[i], p.slots[i].rt.status))
    && (forall i :: 0 <= i < |seen| ==> SoleName(p, i, seen[i]))
    && NamesDiffer(seen)
  }

  /** No slot carries the name, and none can get it from what is queued. */
  ghost predicate ClearOf(p: Shared, since: nat, name: string) {
    forall i :: 0 <= i < |p.slots| ==> Flushed(p.slots[i], since) && NameOf(p.slots[i]) != Some(name)
  }

  ghost predicate NumberedFrom0(seen: seq<SlotStatus>) {
    forall i :: 0 <= i < |seen| ==> seen[i].slot == i
  }

  /** If the booked worker is still in the booked generation, it holds the booked identity. */
  ghost predicate BookingOk(p: Shared, job: Job, booking: Booking, ready: bool) {
    && job.Create?
    && booking.worker < p.nextWorker
    && (booking.slot < |p.slots| && p.slots[booking.slot].id == booking.worker ==>
          var cur := p.slots[booking.slot].rt.status;
          && booking.generation <= cur.generation
          && (booking.generation == cur.generation ==>
                && cur.name == Some(job.name) && cur.mac == Some(job.mac) && cur.tap == Some(TapName(booking.slot))
                && (ready ==> cur.pid.Some? || cur.state.Failed?)))
  }

  /** The slot looked up still runs the VM looked up, or no VM at all. */
  ghost predicate TargetOk(p: Shared, job: Job, since: nat, target: SlotStatus) {
    && (job.Delete? || job.Proxy?)
    && target.slot < |p.slots|
    && target.state.Occupied?
    && target.name == Some(job.name)
    && Flushed(p.slots[target.slot], since)
    && Trails(target, p.slots[target.slot].rt.status)
    && SoleName(p, target.slot, target)
  }

  /** The last slot is the one asked, and scaling down is due. */
  ghost predicate TailOk(p: Shared, slot: nat) {
    && slot + 1 == |p.slots|
    && |p.slots| > p.config.min
    && !CoolingDown(p)
  }

  ghost predicate Vacant(w: Worker) {
    && w.rt.status.name.None?
    && forall e :: e in w.mailbox ==> !e.command.ReserveVm?
  }

  /** An accepted mark yields a running VM; in the booked generation it is exactly the one that was asked for. */
  ghost predicate Settled(job: Job, booking: Booking, startedAt: string, worker: nat, status: SlotStatus) {
    && job.Create?
    && status.slot == booking.slot
    && status.state.Occupied?
    && status.startedAt == Some(startedAt)
    && (worker == booking.worker && status.generation == booking.generation ==>
          && status.name == Some(job.name)
          && status.mac == Some(job.mac)
          && status.tap == Some(TapName(booking.slot))
          && status.pid.Some?)
  }

  ghost predicate OutcomeOk(job: Job, outcome: Outcome) {
    match outcome
    case Created(booking, startedAt, worker, status) => Settled(job, booking, startedAt, worker, status)
    case Deleted(target, after) =>
      && job.Delete? && target.name == Some(job.name) && target.state.Occupied?
      && after.slot == target.slot && after.generation == target.generation + 1 && after.state.Empty?
    case Proxied(target) => job.Proxy? && target.name == Some(job.name) && target.state.Occupied?
    case _ => true
  }

  /** The reservation a task works for, and whether it has seen its process. */
  function BookingOf(pc: Pc): Option<(Booking, bool)> {
    match pc
    case ReadyWait(booking, booted) => Some((booking, booted.Some?))
    case ReadyAsk(booking, booted) => Some((booking, booted.Some?))
    case ReadySeen(booking, booted, hasPid) => Some((booking, booted.Some? || hasPid))
    case PutCreateWait(booking, _) => Some((booking, true))
    case PutCreate(booking, _) => Some((booking, true))
    case PutBoot(booking, _) => Some((booking, true))
    case MarkWait(booking, _) => Some((booking, true))
    case Mark(booking, _) => Some((booking, true))
    case CleanupWait(_, booked) => if booked.Some? then Some((booked.value, true)) else None
    case Cleanup(_, booked) => if booked.Some? then Some((booked.value, true)) else None
    case _ => None
  }

  /** The status a task looked up by name and now acts on. */
  function TargetOf(pc: Pc): Option<SlotStatus> {
    match pc
    case PutShutdown(target) => Some(target)
    case PutDelete(target) => Some(target)
    case Release(target) => Some(target)
    case PutAction(target) => Some(target)
    case _ => None
  }

  ghost predicate JobFits(job: Job, pc: Pc) {
    match pc
    case FindByName(_) => job.Create? || job.Delete? || job.Proxy?
    case FindEmpty(_) => job.Create?
    case Reserve(_) => job.Create?
    case CleanupWait(slot, booked) => booked.Some? ==> booked.value.slot == slot
    case Cleanup(slot, booked) => booked.Some? ==> booked.value.slot == slot
    case PutShutdown(_) => job.Delete?
    case PutDelete(_) => job.Delete?
    case Release(_) => job.Delete?
    case PutAction(_) => job.Proxy?
    case CheckPool => job.Autoscale?
    case AskTail(_) => job.Autoscale?
    case PopTail(_) => job.Autoscale?
    case JoinTail(_) => job.Autoscale?
    case Broadcast => job.Shutdown?
    case DrainPool => job.Shutdown?
    case JoinDrained(_) => job.Shutdown?
    case Done(outcome) => OutcomeOk(job, outcome)
    case _ => true
  }

  ghost predicate PoolWorkOk(p: Shared, task: Task) {
    match task.pc
    case AskTail(slot) => TailOk(p, slot)
    case PopTail(slot) => TailOk(p, slot) && Flushed(p.slots[slot], task.since) && p.slots[slot].rt.status.name.None?
    case JoinTail(popped) => !CoolingDown(p) && WorkerOk(p, |p.slots|, popped) && Vacant(popped)
    case DrainPool => p.shutdown
    case JoinDrained(popped) => p.shutdown && WorkerOk(p, |p.slots|, popped)
    case _ => true
  }

  ghost predicate AllocationOk(p: Shared, task: Task)
    requires JobFits(task.job, task.pc)
  {
    match task.pc
    case FindByName(seen) => ScanOk(p, task.since, seen) && NumberedFrom0(seen)
    case FindEmpty(seen) => ClearOf(p, task.since, task.job.name) && |seen| <= |p.slots| && NumberedFrom0(seen)
    case Reserve(slot) => slot < |p.slots| && (task.call.None? ==> ClearOf(p, task.since, task.job.name))
    case _ => true
  }

  ghost predicate PcOk(p: Shared, task: Task) {
    && JobFits(task.job, task.pc)
    && (BookingOf(task.pc).Some? ==> BookingOk(p, task.job, BookingOf(task.pc).value.0, BookingOf(task.pc).value.1))
    && (TargetOf(task.pc).Some? ==> TargetOk(p, task.job, task.since, TargetOf(task.pc).value))
    && AllocationOk(p, task)
    && PoolWorkOk(p, task)
  }

  /** What a status tells the task at its point of the program. */
  ghost predicate StatusTells(task: Task, worker: nat, st: SlotStatus) {
    match task.pc
    case FindByName(seen) => st.name.Some? ==> forall j :: 0 <= j < |seen| ==> seen[j].name != st.name
    case ReadyAsk(booking, _) => worker == booking.worker ==> booking.generation <= st.generation
    case Mark(booking, startedAt) => Settled(task.job, booking, startedAt, worker, st)
    case Release(target) => st.generation == target.generation + 1 && st.state.Empty?
    case AskTail(_) => st.state.Empty? ==> st.name.None?
    case _ => true
  }

  /** What the task may conclude from a status it was sent. */
  ghost predicate StatusOk(p: Shared, task: Task, slot: nat, worker: nat, st: SlotStatus)
    requires slot < |p.slots|
  {
    var cur := p.slots[slot].rt.status;
    && p.slots[slot].id == worker
    && st.slot == slot
    && (task.pc.Reserve? ==>
          && task.job.Create? && Since(st, cur)
          && st.name == Some(task.job.name) && st.mac == Some(task.job.mac) && st.tap == Some(TapName(slot)))
    && (!task.pc.Reserve? ==> Flushed(p.slots[slot], task.since) && Trails(st, cur) && SoleName(p, slot, st))
    && StatusTells(task, worker, st)
  }

  /** What the task may conclude from a refusal: status and reset are never refused. */
  ghost predicate ErrorOk(p: Shared, task: Task, call: Call, error: PoolError)
    requires call.slot < |p.slots|
  {
    && !call.command.GetVmStatus? && !call.command.ResetVm?
    && (error.Backend? ==> call.command.ReserveVm?)
    && (task.pc.Release? ==>
          var cur := p.slots[call.slot].rt.status;
          cur.generation > task.pc.target.generation || (cur.generation == task.pc.target.generation && cur.state.Failed?))
  }

  ghost predicate AnswerOk(p: Shared, task: Task, call: Call, answer: Answer)
    requires call.slot < |p.slots|
  {
    match answer
    case Answer(worker, Ok(st)) => StatusOk(p, task, call.slot, worker, st)
    case Answer(_, Err(error)) => ErrorOk(p, task, call, error)
    case Lost => !p.slots[call.slot].task.Running?
  }

  ghost predicate CallOk(p: Shared, task: Task) {
    task.call.Some? ==>
      var call := task.call.value;
      && RequestAt(task, |p.slots|) == Some((call.slot, call.command))
      && task.since <= call.ticket < p.nextTicket
      && call.slot < |p.slots|
      && (forall i, e :: 0 <= i < |p.slots| && e in p.slots[i].mailbox && e.ticket == call.ticket ==> i == call.slot && e.command == call.command)
      && (call.ticket in p.answers ==> AnswerOk(p, task, call, p.answers[call.ticket]))
  }

  /** A task that holds the lock and has sent no reservation knows that none was sent since it got the lock. */
  ghost predicate GuardOk(p: Shared, task: Task) {
    && task.since <= p.nextTicket
    && (!GuardOf(task).NoGuard? && !(task.pc.Reserve? && task.call.Some?) ==> NoneReserves(p, task.since))
  }

  ghost predicate TaskOk(p: Shared, task: Task) {
    GuardOk(p, task) && CallOk(p, task) && PcOk(p, task)
  }

  ghost predicate TasksOk(s: System) {
    forall t :: t in s.tasks ==> TaskOk(s.pool, s.tasks[t])
  }

  // ---------- The pool ----------

  ghost predicate SizeOk(p: Shared) {
    && p.config.min <= p.config.max
    && (!p.shutdown ==> p.config.min <= |p.slots| <= p.config.max)
  }

  /** The only errors a worker reports are a refused transition and a failed tap device. */
  ghost predicate FromWorker(answer: Answer) {
    answer.Answer? && answer.reply.Err? ==> answer.reply.error.InvalidTransition? || answer.reply.error.Backend?
  }

  ghost predicate AnswersOk(p: Shared) {
    forall ticket :: ticket in p.answers ==> ticket < p.nextTicket && FromWorker(p.answers[ticket])
  }

  ghost predicate PoolOk(p: Shared) {
    SlotsOk(p) && UniqueNames(p) && AnswersOk(p) && SizeOk(p)
  }

  ghost predicate Inv(s: System) {
    PoolOk(s.pool) && Exclusive(s) && TasksOk(s)
  }
}
