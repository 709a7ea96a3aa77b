/**
 The pool as a concurrent system: slot workers with their mailboxes, the vector of slots, and
 the tasks (create, delete, proxy, autoscale, shutdown) that drive them under one
 readers-writer lock. Every await of the program is a point between two steps, so a run is an
 arbitrary interleaving.
 */
module Protocol {
  import opened Slots
  import opened SlotSteps
  import opened Decimal

  // ---------- Workers ----------

  datatype Envelope = Envelope(ticket: nat, command: Command)

  /** Whether a worker task is in its loop, left it, or failed (was aborted or panicked). */
  datatype WorkerTask = Running | Left | Died

  /**
   A slot worker and the channel to it: `id` tells apart successive workers of one slot;
   the sending half of the channel belongs to the worker's handle.
   */
  datatype Worker = Worker(id: nat, rt: Runtime, mailbox: seq<Envelope>, task: WorkerTask)

  datatype WorkerEvent =
    | Own(event: Event)
    | Take(tapError: Option<string>)
    | Leave
    | Die

  function FreshWorker(id: nat, slot: nat): Worker {
    Worker(id, InitialRuntime(slot), [], Running)
  }

  /**
   A worker leaves its loop when shutdown was announced. It would also leave when all command
   senders are gone, but its handle owns one, and the handle outlives it: it sits in the vector
   of slots, or with the task that popped it, which keeps it until the worker was joined.
   */
  predicate WorkerCan(w: Worker, shutdown: bool, event: WorkerEvent) {
    && w.task.Running?
    && match event
       case Own(e) => !e.Handle? && Possible(w.rt, e)
       case Take(_) => |w.mailbox| > 0
       case Leave => shutdown
       case Die => true
  }

  function WorkerAfter(w: Worker, event: WorkerEvent): Worker
    requires WorkerCan(w, true, event)
  {
    match event
    case Own(e) => w.(rt := After(w.rt, e))
    case Take(tapError) => w.(rt := Handled(w.rt, w.mailbox[0].command, tapError), mailbox := w.mailbox[1..])
    case Leave => w.(mailbox := [], task := Left)
    case Die => w.(mailbox := [], task := Died)
  }

  /** What a requester finds in its response channel; `Lost` when the worker dropped it. */
  datatype Answer = Answer(worker: nat, reply: Reply) | Lost

  function Tickets(mailbox: seq<Envelope>): set<nat> {
    set e | e in mailbox :: e.ticket
  }

  function NewAnswers(w: Worker, event: WorkerEvent): map<nat, Answer>
    requires WorkerCan(w, true, event)
  {
    match event
    case Own(_) => map[]
    case Take(tapError) =>
      map[w.mailbox[0].ticket := Answer(w.id, ReplyTo(w.rt, w.mailbox[0].command, tapError))]
    case Leave => map t | t in Tickets(w.mailbox) :: Lost
    case Die => map t | t in Tickets(w.mailbox) :: Lost
  }

  // ---------- Tasks ----------

  datatype Job =
    | Create(name: string, mac: string, restore: bool)
    | Delete(name: string)
    | Proxy(name: string)
    | Autoscale
    | Shutdown

  /** The reservation a create obtained: slot, worker and generation. */
  datatype Booking = Booking(slot: nat, worker: nat, generation: nat)

  datatype Outcome =
    | Refused(error: PoolError)
    | NotFound
    | Conflict
    | BackendError
    | NotReady
    | Cancelled
    | Created(booking: Booking, startedAt: string, worker: nat, status: SlotStatus)
    | Deleted(target: SlotStatus, after: SlotStatus)
    | Proxied(target: SlotStatus)
    | ShutDown

  /** Where a task stands in its program, with the locals it still needs. */
  datatype Pc =
    | Start
    | FindByName(seen: seq<SlotStatus>)
    | FindEmpty(seen: seq<SlotStatus>)
    | Reserve(slot: nat)
    | ReadyWait(booking: Booking, booted: Option<string>)
    | ReadyAsk(booking: Booking, booted: Option<string>)
    | ReadySeen(booking: Booking, booted: Option<string>, hasPid: bool)
    | PutCreateWait(booking: Booking, startedAt: string)
    | PutCreate(booking: Booking, startedAt: string)
    | PutBoot(booking: Booking, startedAt: string)
    | MarkWait(booking: Booking, startedAt: string)
    | Mark(booking: Booking, startedAt: string)
    | CleanupWait(slot: nat, booked: Option<Booking>)
    | Cleanup(slot: nat, booked: Option<Booking>)
    | PutShutdown(target: SlotStatus)
    | PutDelete(target: SlotStatus)
    | Release(target: SlotStatus)
    | PutAction(target: SlotStatus)
    | CheckPool
    | AskTail(slot: nat)
    | PopTail(slot: nat)
    | JoinTail(popped: Worker)
    | Broadcast
    | DrainPool
    | JoinDrained(popped: Worker)
    | Done(outcome: Outcome)

  /** A command sent and not yet answered to the task. */
  datatype Call = Call(ticket: nat, slot: nat, command: Command)

  /** `since` is the ticket counter when the task last acquired the lock. */
  datatype Task = Task(job: Job, pc: Pc, call: Option<Call>, since: nat)

  datatype Guard = NoGuard | ReadGuard | WriteGuard

  function GuardOf(task: Task): Guard {
    match task.pc
    case Start => NoGuard
    case FindByName(_) => if task.job.Create? then WriteGuard else ReadGuard
    case FindEmpty(_) => WriteGuard
    case Reserve(_) => WriteGuard
    case ReadyAsk(_, _) => ReadGuard
    case PutCreate(_, _) => ReadGuard
    case PutBoot(_, _) => ReadGuard
    case Mark(_, _) => ReadGuard
    case Cleanup(_, _) => ReadGuard
    case PutShutdown(_) => ReadGuard
    case PutDelete(_) => ReadGuard
    case Release(_) => ReadGuard
    case PutAction(_) => ReadGuard
    case CheckPool => WriteGuard
    case AskTail(_) => WriteGuard
    case PopTail(_) => WriteGuard
    case JoinTail(_) => WriteGuard
    case Broadcast => WriteGuard
    case DrainPool => WriteGuard
    case JoinDrained(_) => WriteGuard
    case _ => NoGuard
  }

  // ---------- The system ----------

  datatype Config = Config(min: nat, max: nat, cooldown: nat)

  /**
   What all tasks share: the pool and the answers under way. The last four fields are history:
   when the pool was scaled down, the workers joined so far, the reservations granted and the
   named slots cleared.
   */
  datatype Shared = Shared(
    config: Config,
    slots: seq<Worker>,
    answers: map<nat, Answer>,
    nextTicket: nat,
    nextWorker: nat,
    clock: nat,
    lastScaleDown: Option<nat>,
    shutdown: bool,
    scaleDowns: seq<nat>,
    joined: set<nat>,
    reserved: nat,
    cleared: nat)

  datatype System = System(pool: Shared, tasks: map<nat, Task>)

  function InitialSystem(config: Config): System {
    var slots := seq(config.min, i requires 0 <= i => FreshWorker(i, i));
    System(Shared(config, slots, map[], 0, config.min, 0, None, false, [], {}, 0, 0), map[])
  }

  // ---------- Calls ----------

  /** The slot and command the program sends at this point, if it sends one. */
  function RequestAt(task: Task, size: nat): Option<(nat, Command)> {
    match task.pc
    case FindByName(seen) => if |seen| < size then Some((|seen|, GetVmStatus)) else None
    case FindEmpty(seen) => if |seen| < size then Some((|seen|, GetVmStatus)) else None
    case Reserve(slot) =>
      if task.job.Create? then Some((slot, ReserveVm(task.job.name, task.job.mac, TapName(slot)))) else None
    case ReadyAsk(booking, _) => Some((booking.slot, GetVmStatus))
    case Mark(booking, startedAt) => Some((booking.slot, MarkVmBooted(startedAt)))
    case Cleanup(slot, _) => Some((slot, ResetVm))
    case Release(target) => Some((target.slot, ReleaseVm))
    case AskTail(slot) => Some((slot, GetVmStatus))
    case _ => None
  }

  function OnError(task: Task, error: PoolError): Pc {
    if task.job.Autoscale? then Start
    else if task.pc.Cleanup? then Done(BackendError)
    else Done(Refused(error))
  }

  function OnStatus(task: Task, worker: nat, status: SlotStatus): Pc {
    match task.pc
    case FindByName(seen) => FindByName(seen + [status])
    case FindEmpty(seen) => FindEmpty(seen + [status])
    case Reserve(_) => ReadyWait(Booking(status.slot, worker, status.generation), None)
    case ReadyAsk(booking, booted) => ReadySeen(booking, booted, status.pid.Some?)
    case Mark(booking, startedAt) => Done(Created(booking, startedAt, worker, status))
    case Cleanup(_, _) => Done(BackendError)
    case Release(target) => Done(Deleted(target, status))
    case AskTail(slot) => if status.state.Empty? then PopTail(slot) else Start
    case _ => task.pc
  }

  function OnAnswer(task: Task, answer: Answer): Pc {
    match answer
    case Lost => OnError(task, ChannelClosed)
    case Answer(worker, Err(error)) => OnError(task, error)
    case Answer(worker, Ok(status)) => OnStatus(task, worker, status)
  }

  // ---------- Decisions ----------

  /** The reply of a VM's control socket. */
  datatype Http = TransportError(message: string) | HttpStatus(code: nat)

  /** What the surroundings contribute to a decision. */
  datatype Oracle = Oracle(connected: bool, expired: bool, http: Http, now: string)

  /** What a decision does to the pool. */
  datatype Move = Keep | Grow | Pop | Join(record: bool, worker: nat) | RaiseShutdown

  /** Where a scan finds the VM with this name first. */
  function FirstNamed(seen: seq<SlotStatus>, name: string): (found: Option<nat>)
    ensures match found
            case None => forall k :: 0 <= k < |seen| ==> seen[k].name != Some(name)
            case Some(i) => i < |seen| && seen[i].name == Some(name) && forall k :: 0 <= k < i ==> seen[k].name != Some(name)
  {
    if |seen| == 0 then None
    else if seen[0].name == Some(name) then Some(0)
    else
      assert forall k :: 0 < k < |seen| ==> seen[k] == seen[1..][k - 1];
      match FirstNamed(seen[1..], name) case None => None case Some(i) => Some(i + 1)
  }

  /** Where a scan finds an empty slot first. */
  function FirstEmpty(seen: seq<SlotStatus>): (found: Option<nat>)
    ensures match found
            case None => forall k :: 0 <= k < |seen| ==> !seen[k].state.Empty?
            case Some(i) => i < |seen| && seen[i].state.Empty? && forall k :: 0 <= k < i ==> !seen[k].state.Empty?
  {
    if |seen| == 0 then None
    else if seen[0].state.Empty? then Some(0)
    else
      assert forall k :: 0 < k < |seen| ==> seen[k] == seen[1..][k - 1];
      match FirstEmpty(seen[1..]) case None => None case Some(i) => Some(i + 1)
  }

  function AfterHttp(http: Http, refused: Pc, next: Pc): Pc {
    match http
    case TransportError(message) => Done(Refused(Backend(message)))
    case HttpStatus(code) => if code >= 400 then refused else next
  }

  predicate CoolingDown(p: Shared) {
    p.lastScaleDown.Some? && p.clock - p.lastScaleDown.value < p.config.cooldown
  }

  /** Whether the program can decide here: it is neither sending nor waiting. */
  predicate CanDecide(p: Shared, task: Task) {
    && task.call.None?
    && RequestAt(task, |p.slots|).None?
    && match task.pc
       case FindByName(_) => task.job.Create? || task.job.Delete? || task.job.Proxy?
       case FindEmpty(_) => task.job.Create?
       case ReadySeen(_, _, _) => true
       case PutCreate(_, _) => task.job.Create?
       case PutBoot(_, _) => true
       case PutShutdown(_) => true
       case PutDelete(_) => true
       case PutAction(_) => true
       case CheckPool => true
       case PopTail(_) => |p.slots| > 0
       case JoinTail(popped) => !popped.task.Running?
       case Broadcast => true
       case DrainPool => true
       case JoinDrained(popped) => !popped.task.Running?
       case _ => false
  }

  function Plan(p: Shared, task: Task, o: Oracle): (Pc, Move)
    requires CanDecide(p, task)
  {
    match task.pc
    case FindByName(seen) =>
      var found := FirstNamed(seen, task.job.name);
      if task.job.Create? then
        (if found.Some? then Done(Refused(VmAlreadyRunning(task.job.name))) else FindEmpty([]), Keep)
      else if found.None? then (Done(NotFound), Keep)
      else if !seen[found.value].state.Occupied? then (Done(Conflict), Keep)
      else if task.job.Delete? then (PutShutdown(seen[found.value]), Keep)
      else (PutAction(seen[found.value]), Keep)
    case FindEmpty(seen) =>
      var found := FirstEmpty(seen);
      if found.Some? then (Reserve(seen[found.value].slot), Keep)
      else if |p.slots| >= p.config.max then (Done(Refused(NoAvailableSlot)), Keep)
      else (FindEmpty([]), Grow)
    case ReadySeen(booking, booted, hasPid) =>
      if hasPid && o.connected then
        (if booted.None? then PutCreateWait(booking, o.now) else MarkWait(booking, booted.value), Keep)
      else if o.expired then (Done(NotReady), Keep)
      else (ReadyWait(booking, booted), Keep)
    case PutCreate(booking, startedAt) =>
      var next := if task.job.restore then ReadyWait(booking, Some(startedAt)) else PutBoot(booking, startedAt);
      (AfterHttp(o.http, CleanupWait(booking.slot, Some(booking)), next), Keep)
    case PutBoot(booking, startedAt) =>
      (AfterHttp(o.http, CleanupWait(booking.slot, Some(booking)), ReadyWait(booking, Some(startedAt))), Keep)
    case PutShutdown(target) => (AfterHttp(o.http, CleanupWait(target.slot, None), PutDelete(target)), Keep)
    case PutDelete(target) => (AfterHttp(o.http, CleanupWait(target.slot, None), Release(target)), Keep)
    case PutAction(target) =>
      var outcome := match o.http
        case TransportError(message) => Refused(Backend(message))
        case HttpStatus(code) => if code >= 400 then BackendError else Proxied(target);
      (Done(outcome), Keep)
    case CheckPool =>
      if |p.slots| <= p.config.min || CoolingDown(p) then (Start, Keep)
      else (AskTail(|p.slots| - 1), Keep)
    case PopTail(_) => (JoinTail(p.slots[|p.slots| - 1]), Pop)
    case JoinTail(popped) => (Start, Join(true, popped.id))
    case Broadcast => (DrainPool, RaiseShutdown)
    case DrainPool =>
      if |p.slots| == 0 then (Done(ShutDown), Keep)
      else (JoinDrained(p.slots[|p.slots| - 1]), Pop)
    case JoinDrained(popped) => (DrainPool, Join(false, popped.id))
  }

  function Moved(p: Shared, move: Move): Shared
    requires move.Pop? ==> |p.slots| > 0
  {
    match move
    case Keep => p
    case Grow => p.(slots := p.slots + [FreshWorker(p.nextWorker, |p.slots|)], nextWorker := p.nextWorker + 1)
    case Pop => p.(slots := p.slots[..|p.slots| - 1])
    case Join(record, worker) =>
      var joined := p.(joined := p.joined + {worker});
      if record then joined.(lastScaleDown := Some(p.clock), scaleDowns := p.scaleDowns + [p.clock]) else joined
    case RaiseShutdown => p.(shutdown := true)
  }

  // ---------- Steps ----------

  datatype Action =
    | Arrive(task: nat, job: Job)
    | Acquire(task: nat)
    | Send(task: nat)
    | Receive(task: nat)
    | Decide(task: nat, oracle: Oracle)
    | Cancel(task: nat)
    | Observe(slot: nat)
    | WorkerStep(slot: nat, event: WorkerEvent)
    | PoppedStep(task: nat, event: WorkerEvent)
    | Pass(time: nat)

  /** The lock a waiting task asks for, and where it continues with it. */
  function Entry(task: Task): Option<(Guard, Pc)> {
    match task.pc
    case Start =>
      (match task.job
       case Create(_, _, _) => Some((WriteGuard, FindByName([])))
       case Delete(_) => Some((ReadGuard, FindByName([])))
       case Proxy(_) => Some((ReadGuard, FindByName([])))
       case Autoscale => Some((WriteGuard, CheckPool))
       case Shutdown => Some((WriteGuard, Broadcast)))
    case ReadyWait(booking, booted) => Some((ReadGuard, ReadyAsk(booking, booted)))
    case PutCreateWait(booking, startedAt) => Some((ReadGuard, PutCreate(booking, startedAt)))
    case MarkWait(booking, startedAt) => Some((ReadGuard, Mark(booking, startedAt)))
    case CleanupWait(slot, booked) => Some((ReadGuard, Cleanup(slot, booked)))
    case _ => None
  }

  /** The lock: a writer excludes everyone, a reader excludes writers. */
  predicate Admits(s: System, guard: Guard) {
    forall t :: t in s.tasks ==> GuardOf(s.tasks[t]) != WriteGuard && (guard.WriteGuard? ==> GuardOf(s.tasks[t]) == NoGuard)
  }

  predicate Cancellable(job: Job) {
    job.Create? || job.Delete? || job.Proxy?
  }

  predicate CanSend(p: Shared, request: (nat, Command)) {
    request.0 < |p.slots| && p.slots[request.0].task.Running? ==> |p.slots[request.0].mailbox| < CHANNEL_CAPACITY
  }

  predicate WorkerEnabled(p: Shared, i: nat, event: WorkerEvent) {
    i < |p.slots| && WorkerCan(p.slots[i], p.shutdown, event)
  }

  predicate Enabled(s: System, a: Action) {
    match a
    case Arrive(t, job) => t !in s.tasks
    case Acquire(t) =>
      t in s.tasks && Entry(s.tasks[t]).Some? && Admits(s, Entry(s.tasks[t]).value.0)
    case Send(t) =>
      && t in s.tasks && s.tasks[t].call.None?
      && RequestAt(s.tasks[t], |s.pool.slots|).Some?
      && CanSend(s.pool, RequestAt(s.tasks[t], |s.pool.slots|).value)
    case Receive(t) => t in s.tasks && s.tasks[t].call.Some? && s.tasks[t].call.value.ticket in s.pool.answers
    case Decide(t, _) => t in s.tasks && CanDecide(s.pool, s.tasks[t])
    case Cancel(t) => t in s.tasks && Cancellable(s.tasks[t].job) && !s.tasks[t].pc.Done?
    case Observe(i) => i < |s.pool.slots| && s.pool.slots[i].task.Running? && |s.pool.slots[i].mailbox| < CHANNEL_CAPACITY
    case WorkerStep(i, event) => WorkerEnabled(s.pool, i, event)
    case PoppedStep(t, event) =>
      && t in s.tasks
      && (s.tasks[t].pc.JoinTail? || s.tasks[t].pc.JoinDrained?)
      && WorkerCan(s.tasks[t].pc.popped, s.pool.shutdown, event)
    case Pass(_) => true
  }

  function WithTask(s: System, t: nat, task: Task): System {
    s.(tasks := s.tasks[t := task])
  }

  /** Puts a command into the mailbox of a slot. */
  function Posted(p: Shared, slot: nat, command: Command): Shared
    requires slot < |p.slots|
  {
    var w := p.slots[slot];
    p.(slots := p.slots[slot := w.(mailbox := w.mailbox + [Envelope(p.nextTicket, command)])], nextTicket := p.nextTicket + 1)
  }

  function Sent(s: System, t: nat): System
    requires Enabled(s, Send(t))
  {
    var task, p := s.tasks[t], s.pool;
    var request := RequestAt(task, |p.slots|).value;
    if request.0 >= |p.slots| then WithTask(s, t, task.(pc := OnError(task, SlotNotFound(request.0))))
    else if !p.slots[request.0].task.Running? then WithTask(s, t, task.(pc := OnError(task, ChannelClosed)))
    else
      WithTask(System(Posted(p, request.0, request.1), s.tasks), t,
               task.(call := Some(Call(p.nextTicket, request.0, request.1))))
  }

  /** Whether this event grants a reservation. */
  predicate Grants(w: Worker, event: WorkerEvent)
    requires WorkerCan(w, true, event)
  {
    event.Take? && w.mailbox[0].command.ReserveVm? && ReplyTo(w.rt, w.mailbox[0].command, event.tapError).Ok?
  }

  /** Whether this event ends a VM: a release, the exit of its process, or a reset of a named slot. */
  predicate Clears(w: Worker, event: WorkerEvent)
    requires WorkerCan(w, true, event)
  {
    match event
    case Own(ChildExited) => w.rt.status.state.Booting? || w.rt.status.state.Occupied?
    case Take(tapError) =>
      || (w.mailbox[0].command.ReleaseVm? && ReplyTo(w.rt, w.mailbox[0].command, tapError).Ok?)
      || (w.mailbox[0].command.ResetVm? && w.rt.status.name.Some?)
    case _ => false
  }

  function WorkerStepped(p: Shared, i: nat, event: WorkerEvent): Shared
    requires WorkerEnabled(p, i, event)
  {
    var w := p.slots[i];
    p.(slots := p.slots[i := WorkerAfter(w, event)],
       answers := p.answers + NewAnswers(w, event),
       reserved := p.reserved + (if Grants(w, event) then 1 else 0),
       cleared := p.cleared + (if Clears(w, event) then 1 else 0))
  }

  /** A popped worker moves on its own; the task that popped it holds its handle. */
  function PoppedStepped(s: System, t: nat, event: WorkerEvent): System
    requires Enabled(s, PoppedStep(t, event))
  {
    var task := s.tasks[t];
    var w := task.pc.popped;
    var pc := if task.pc.JoinTail? then JoinTail(WorkerAfter(w, event)) else JoinDrained(WorkerAfter(w, event));
    WithTask(System(s.pool.(answers := s.pool.answers + NewAnswers(w, event)), s.tasks), t, task.(pc := pc))
  }

  function Decided(s: System, t: nat, o: Oracle): System
    requires Enabled(s, Decide(t, o))
  {
    var plan := Plan(s.pool, s.tasks[t], o);
    WithTask(System(Moved(s.pool, plan.1), s.tasks), t, s.tasks[t].(pc := plan.0))
  }

  function Step(s: System, a: Action): System
    requires Enabled(s, a)
  {
    match a
    case Arrive(t, job) => WithTask(s, t, Task(job, Start, None, 0))
    case Acquire(t) => WithTask(s, t, s.tasks[t].(pc := Entry(s.tasks[t]).value.1, since := s.pool.nextTicket))
    case Send(t) => Sent(s, t)
    case Receive(t) =>
      var task := s.tasks[t];
      WithTask(s, t, task.(pc := OnAnswer(task, s.pool.answers[task.call.value.ticket]), call := None))
    case Decide(t, o) => Decided(s, t, o)
    case Cancel(t) => WithTask(s, t, s.tasks[t].(pc := Done(Cancelled), call := None))
    case Observe(i) => s.(pool := Posted(s.pool, i, GetVmStatus))
    case WorkerStep(i, event) => s.(pool := WorkerStepped(s.pool, i, event))
    case PoppedStep(t, event) => PoppedStepped(s, t, event)
    case Pass(time) => s.(pool := s.pool.(clock := s.pool.clock + time))
  }
}
