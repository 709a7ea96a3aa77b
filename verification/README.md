# The slot pool of the VM daemon, in Dafny

The daemon keeps a pool of slots. Each slot is served by a worker task with a
command channel of 16 places and, most of the time, a hypervisor process. The
pool grows on demand and shrinks under a cooldown. Requests (create, delete,
proxy), the autoscaler and shutdown drive the workers under one readers-writer
lock. This project models that protocol over every interleaving and proves what
can be relied on; it also covers the /proc text parsers and the path from a boot
configuration to the request that creates a VM.

`dafny verify dfyconfig.toml` checks everything.

## How it is organised

| files | content |
|---|---|
| `Slots`, `SlotSteps`, `SlotRuns` | the slot as a transition system, its epochs and its isolation over whole runs, and the mailbox refined to an atomic object |
| `SlotSupervisor` | the worker as an object updated in place: command handler and loop, proved against the transition system |
| `Protocol` | the concurrent system: workers, mailboxes, answers, tasks with program counters, the lock, the clock, cancellation of requests |
| `ProtocolInvariant`, `WorkerSteps`, `TaskSteps`, `PoolMoves`, `Decisions`, `PoolHistory` | the invariant of the system and its proof, step by step |
| `PoolTheorems` | what holds in every run: names, size, scale-down, delete and shutdown |
| `Workers` | where every worker comes from at a step, in the vector or popped from it; that a slot has one worker, a ticket is queued once, and an answer is final |
| `Reservations`, `Deliveries`, `Bookings` | what worker and generation tell of a reservation and how long it stays; commands from the step that sends them to the step that takes them, whatever became of the sender; whose reservation the requests, the mark or the reset of a create or delete meet |
| `Lookups` | that every status a task was told was real, and what allocations, deletes and proxied requests make of a scan |
| `Programs` | what a task went through before it got where it is, what replies, answers and ticks lead to, and what nobody else does meanwhile |
| `Histories` | every worker of the pool as an atomic slot that is sent exactly what the run posted to it, and its one legal history |
| `PoolScenarios` | runs that show which guarantees are conditional |
| `Interference`, `Pool`, `Service` | the pool object and the service operations as programs whose every step may be interleaved with the workers and other requests, each carrying its protocol task as a ghost |
| `Decimal`, `Text`, `VmMetrics`, `HostMetrics` | numerals, text operations, and the parsers for /proc/[pid]/stat, /proc/[pid]/status and /proc/meminfo |
| `VmValidation`, `VmPayload` | validating a boot configuration and building the request from it |

The contracts of `Pool` and `Service` speak about moments. A request returns, as a ghost, the
`Effect` it had: the pool just before the worker took the command, reached from the pool at the
call and leading to the pool at the return. A `Scan` holds one effect per slot, in order. Every
status a contract mentions is the reply of such an effect, and what is sent to a hypervisor is
recorded with the pool at that moment.

Others may move the pool between any two steps, so effects alone would not tell what an
operation does itself. That is the ghost field `deeds`: the commands other than status
requests it sent, the slots it added and took out, and the shutdown it announced, each in
order. Every operation states its deeds exactly, up to a command that found nobody to take it.

Surroundings are arguments or arbitrary values: outcomes of spawning, polling and
creating tap devices, replies of the hypervisor's socket, the order in which
anything happens, and the passing of time. A worker task may also die at any
moment (a panic or an abort), and a create, delete or proxied request may be
cancelled at any await. `min <= max` is what `spawn` itself demands; the cooldown
per window needs a positive cooldown, which the command line enforces.

## What the code guarantees only conditionally

* **A scale-down does not return.** `autoscale_tick` awaits the worker of the slot
  it popped while that handle still owns the sending half of the channel
  (src/pool.rs:339-340), and it holds the write lock that shutdown would need.
  Before shutdown it returns if and only if that worker task failed
  (`ScaleDownReturnsIffWorkerFailed`); otherwise it waits at every later moment and
  nobody else gets the lock (`ScaleDownBlocksThePool`). `ScaleDownCanWait` is a run
  without any failure that gets there. When it does return it has discarded no VM.
* **A create can return another VM.** After reserving, create lets go of the lock
  and never compares generations (src/service.rs:52-58, 104-108).
  `CreateCanReturnAnotherVm` is a run in which it succeeds with a VM of another
  name. A mark meets the reservation of its own create, by worker and generation,
  if and only if no other reservation of that slot was granted between the grant
  and the mark (`MarkMeetsItsBookingIffUndisturbed`); then the result is exactly
  the VM that was asked for. Its requests to the hypervisor, which go out after the
  write lock was dropped (src/service.rs:69-95), are subject to the same condition
  (`BootRequestsHitAnotherIffDisturbed`). Comparing the worker too is needed only
  after a worker task failed, because a new worker of the same slot starts again at
  generation 0 (`GenerationIdentifiesTheBooking`); then the very generation can come
  back with another VM (`SameGenerationCanBeAnotherVm`).
* **A cleanup can reset another VM.** The guard is dropped before the reset is sent
  (src/service.rs:86-89, 97-101, 135-139). `CleanupCanResetAnotherVm` and
  `DeleteCleanupCanResetAnotherVm` are such runs. The reset ends another VM than its
  own if and only if the slot carries one and some reservation of the slot was
  granted in between (`CleanupHitsAnotherIffDisturbed`, and
  `DeleteCleanupHitsAnotherIffDisturbed` for the cleanup of a delete).
* **Cancelling a request does not cancel its command.** A request that is dropped while
  it waits lets go of its guard, but the command it sent stays queued and is executed.
  What is said about the release of a delete (`ReleaseHitsItsTarget`), about marks and
  about cleanups is about the command from the step that sends it to the step that takes
  it, and holds whether or not the request was cancelled in between.
* **A create that does not succeed can leave its reservation behind.** A timeout or a
  failed transport returns without a cleanup (src/service.rs:58, 75-84, 95, 104). Until
  shutdown the slot holds the reservation exactly as long as nothing ended its VM
  (`ReservationStaysUntilCleared`), and as long as it is not marked as booted a delete of
  that name answers a conflict (`LeftoverIsAConflict`).
* **An occupied slot may have no process.** Marking a boot does not look for a child
  (src/slot_supervisor.rs:250). `OccupiedWithoutProcess` is such a run; an accepted
  mark can be reported as a VM exactly when the slot held a process
  (`AcceptedMarkConvertsIffProcess`). Waiting until the slot is ready is what makes
  it hold for a create that meets its own reservation.

## Model

| member | source | states |
|---|---|---|
| SlotSteps.StepKeepsWellFormed | src/slot_supervisor.rs:103-172 | every command and every spontaneous event keeps the slot well formed: which parts of the status each state has, an error exactly when failed, a pid exactly when there is a child, no child when failed |
| SlotRuns.RunsAreWellFormed | src/slot_supervisor.rs:79-198 | every state of every run of a worker is well formed and reports the slot it was started for |
| SlotRuns.RunsEvolve | src/slot_supervisor.rs:94-198 | between any two moments of a run: generations only grow, within one the identity is fixed and the state only advances, a child is never reused |
| SlotRuns.GenerationIsAnEpoch | src/slot_supervisor.rs:223-260 | (generation, rank of the state) never decreases; equal generations have equal name, mac and tap, and at most one start time |
| SlotRuns.OneChildPerReservation | src/slot_supervisor.rs:103-132 | at two moments with a reservation and a process, it is the same process if and only if it is the same reservation |
| SlotRuns.FailedSlotsHaveNoChild | src/slot_supervisor.rs:146-160 | the exit of a child is never observed in a failed slot, so that arm of the handler is unreachable |
| SlotRuns.AcceptedMarkConvertsIffProcess | src/pool.rs:516-529 | in any run, a slot that is booting accepts a mark, and both conversions to a runtime then succeed if and only if it holds a process; otherwise the missing pid is the error |
| SlotRuns.OccupiedWithoutProcess | src/slot_supervisor.rs:246-262 | a legal run that ends occupied without a process, because a mark does not look for one |
| Slots.ConversionsAgree | src/pool.rs:516-529 | both conversions yield a runtime for exactly the occupied statuses with all five parts, each part from the field of its name |
| SlotRuns.MailboxRefinesAtomicSlot | src/slot_supervisor.rs:134-196 | for every interleaving of senders and worker, the accepted commands take effect at most once and in send order, each reply is the one an atomic slot gives at that point, and what has no reply is queued or was dropped by a worker that left |
| SlotSupervisor.SlotWorker.HandleCommand | src/slot_supervisor.rs:207-309 | the in-place handler has exactly the effect and the reply of the transition system: a reservation is accepted only when empty, a mark only when booting, a release only when occupied, a reset always; what is refused changes nothing and names state and action; release and reset leave nothing of the VM, in the next generation, and stop the child they detach |
| SlotSupervisor.SlotWorker.SpawnIfNeeded | src/slot_supervisor.rs:103-132 | spawns exactly when there is no child and the slot did not fail; a child that started is the new one, with its pid; one that did not makes the slot failed with the error |
| SlotSupervisor.SlotWorker.Drain | src/slot_supervisor.rs:134-136 | handles everything queued or arriving meanwhile, in order, one reply each, until an attempt finds the queue empty |
| SlotSupervisor.SlotWorker.PollChild | src/slot_supervisor.rs:138-172 | an exit leaves the slot empty, without name, mac, tap, pid or child, in the next generation if it carried a VM and in the same one if not; a failed poll leaves it failed with the error, in its generation and under its name, without a child; a child that still runs changes nothing |
| SlotSupervisor.SlotWorker.Await | src/slot_supervisor.rs:174-196 | what ends the wait; the worker leaves exactly on shutdown, a lost shutdown sender, or a closed and empty channel |
| SlotSupervisor.SlotWorker.Iterate | src/slot_supervisor.rs:94-198 | one turn performs spawn, drain, poll and wait in that order, each with the effect its own row states; on every way out the child was told to stop and the socket file was removed |
| SlotSupervisor.SlotWorker.Supervise | src/slot_supervisor.rs:70-198 | over any number of turns, history and queue at the end are those at the beginning extended turn by turn by spawn, drain, poll and wait; the object stays the state of its history, replies are only appended, and it leaves exactly as the last turn says |
| Decimal.SlotNamesAreDistinct | src/pool.rs:221-223 | taps and socket names of two slots are equal if and only if the slots are, and a tap is "tap" followed by the decimal slot number |
| Protocol.FirstNamed | src/pool.rs:225-234 | the first entry of a scan with the name, or none has it |
| Protocol.FirstEmpty | src/pool.rs:303-308 | the first entry of a scan that is empty, or none is |
| Decisions.StepKeepsInv | src/pool.rs:112-464 | every step of every worker and task keeps the invariant of the system |
| PoolTheorems.RunsKeepInvariants | src/pool.rs:118-163 | the invariants hold in every state of every run that starts from a spawned pool |
| PoolTheorems.NamesAreUnique | src/pool.rs:293-320 | in every run no two slots claim the same VM name, counting booting, running and failed VMs and queued reservations, although the name check is no atomic snapshot |
| PoolTheorems.PoolKeepsItsShape | src/pool.rs:165-183 | until shutdown the size stays within its bounds; worker i reports slot i; a named slot's tap is tap{i}; taps in use are distinct; no channel exceeds its capacity |
| PoolTheorems.ReservationsAreConserved | src/slot_supervisor.rs:217-307 | reservations granted minus VMs ended (release, exit, reset) is the number of named slots, across growth and shrinking |
| PoolTheorems.ScaleDownDiscardsNothing | src/pool.rs:333-339 | the slot popped is the last, carries no name, mac or tap and has no reservation queued, even if it moved after its reply; all others stay |
| PoolTheorems.JoinedWorkerStaysVacant | src/pool.rs:340-342 | while its worker is awaited, the popped slot gets no VM |
| PoolTheorems.ScaleDownReturnsIffWorkerFailed | src/pool.rs:339-343 | before shutdown a scale-down can return if and only if the popped worker's task failed |
| PoolTheorems.JoinStaysStuckForEver | src/pool.rs:339-343 | a scale-down whose worker does not fail still waits at every later moment of every run, and shutdown is not announced |
| PoolTheorems.ScaleDownBlocksThePool | src/main.rs:234-256 | meanwhile no other task, shutdown included, can get the lock |
| PoolTheorems.ScaleDownsAreSpaced | src/pool.rs:327-343 | scale-downs i and j of a run are at least (j - i) cooldowns apart |
| PoolTheorems.ScaleDownsPerWindow | src/pool.rs:327-343 | a window of length W holds at most W / cooldown + 1 scale-downs |
| PoolTheorems.RequestsReachTheirVm | src/service.rs:121-150 | from lookup to release or proxied request, the slot still runs the VM looked up in the same generation, or no VM: it was never given to another name |
| PoolTheorems.DeleteFreesItsTarget | src/service.rs:117-152 | a delete that succeeded ended the generation it looked up by its name |
| PoolTheorems.DeletedNameIsFree | src/service.rs:150-151 | when a delete is told that its release succeeded, no slot carries the name and no reservation of it is queued |
| PoolTheorems.LookupsSeeNamesOnce | src/pool.rs:185-193 | a lookup scans slots that keep moving, yet never sees a name twice, and no other slot carries a name it saw or is about to get it |
| PoolTheorems.CreateReturnsItsVm | src/service.rs:104-111 | a mark applied by the booked worker in the booked generation yields exactly the requested name, mac, tap, start time and a present pid, so the conversion cannot fail |
| PoolTheorems.GenerationIdentifiesTheBooking | src/service.rs:104-111 | as long as no worker task failed, comparing the generation alone is enough |
| PoolTheorems.NoJoinWithoutFailure | src/pool.rs:339-342 | before shutdown, and without a failed worker task, no worker is ever joined |
| PoolTheorems.WorkersLeaveOnlyOnShutdown | src/slot_supervisor.rs:95-101 | a worker of the pool leaves its loop only after shutdown was announced |
| PoolTheorems.ShutdownDrainsThePool | src/pool.rs:454-464 | when shutdown completes the vector is empty and every worker ever started was joined |
| Workers.OneServerPerSlot | src/pool.rs:165-183 | counting a popped worker that is still awaited, no two workers serve the same slot in any system that satisfies the invariant |
| Workers.TicketsAreUsedOnce | src/pool.rs:195-206 | in every run a ticket is queued at the workers of one slot only, and what is queued has no answer yet |
| Workers.AnswersAreFinal | src/pool.rs:195-206 | an answer, once given, is the answer in every later state of the run |
| Reservations.SameReservationIffNoOtherGrant | src/slot_supervisor.rs:217-245 | a slot named at two moments of a run, its worker in the vector or popped, carries the same reservation, by worker and generation, if and only if none was granted there in between; then it is the same VM |
| Reservations.ReservationStaysIffNotCleared | src/slot_supervisor.rs:146-307 | until shutdown, a reservation is still there if and only if no release, exit or reset ended its VM in between |
| Deliveries.CommandsArrive | src/pool.rs:195-206 | a command is taken, if ever, by the worker it was sent to, as the command it was, and the reply then lies under its ticket, whatever became of the sender |
| Deliveries.ReleaseHitsItsTarget | src/slot_supervisor.rs:263-289 | the release a delete sent, whenever it is taken and even if the delete was cancelled, ends exactly the reservation looked up, or is refused with the present state and changes nothing; and its answer says which |
| Histories.WorkersFollowOneHistory | src/slot_supervisor.rs:46-68 | between any two moments of a pool run a worker follows one legal history of its slot, of which the first moment is a prefix |
| Histories.OneProcessPerReservation | src/slot_supervisor.rs:103-132 | at two moments of a pool run at which a worker's slot carries a VM and has a process, it is the same process if and only if it is the same generation; then it is the same VM |
| Histories.EventIsActorStep | src/slot_supervisor.rs:134-136 | a pool worker's event is a step of the mailbox actor, and the answer it puts is the actor's reply |
| Histories.PoolWorkersRefineAtomicSlots | src/pool.rs:195-206 | for every worker in every pool run: of the envelopes the run posted to it, with increasing tickets, the first took effect, each once and in order, in a legal history that leads to its record; under each of their tickets lies the reply an atomic slot gives at that point; the others are queued, in order, or answered as lost once the worker ended |
| Lookups.StatusesAreReal | src/pool.rs:185-206 | in every run, every status a task was told, scanned or acts on was that slot's status at a moment since the task took the lock |
| Lookups.AllocationTakesFirstEmpty | src/pool.rs:302-319 | a create that scanned every slot reserves the first that replied empty; with none it is refused exactly at maximal size, and otherwise grows by one and scans again |
| Lookups.RefusedIffNameSeen | src/pool.rs:298-300 | a create is refused its name if and only if some slot replied that it carries it |
| Lookups.LookupDecidesByOnlyEntry | src/service.rs:121-129 | a delete or proxied request is told not found if and only if no slot of a whole scan replied with its name, and a conflict if and only if the one that did was not running; otherwise it goes on with exactly that entry |
| Lookups.LeftoverIsAConflict | src/service.rs:127-129 | a reservation that a create left behind and that nothing ended is found by a later delete of its name, which answers a conflict as long as the slot is still booting |
| Programs.TasksCameThrough | src/service.rs:43-152 | in every run, a create that succeeded or is about to mark saw its slot ready, had its VM created or restored, booted unless it was restored, and saw its slot ready again, in this order and for one booking; a delete that succeeded found its target running in a whole scan, had it shut down, then deleted; a proxied request that succeeded was accepted; a cleanup follows an error status |
| Programs.ReplyDecides | src/service.rs:75-148 | a failed transport ends an operation with its message, an error status sends it to its cleanup, and a status below 400 to its next request, which for a create is boot exactly if nothing is restored |
| Programs.TicksDecide | src/pool.rs:322-354 | in every run a tick asks the last slot exactly when the pool is above its minimal size and the last scale-down is at least the cooldown ago, pops it exactly when it replied empty, and notes the time when the worker ended |
| Programs.ChangersAreAlone | src/service.rs:52-55 | while a task allocates, shrinks or shuts down, no other task does, and none looks slots up, sends to one, or sends to a hypervisor |
| Bookings.ReservationStaysUntilCleared | src/service.rs:52-95 | until shutdown, the slot holds the reservation a create was granted, under its name, if and only if nothing ended its VM since, whether the create succeeded, timed out, failed or was cancelled |
| Bookings.BootRequestsHitAnotherIffDisturbed | src/service.rs:69-95 | while a create sends the requests that create and boot its VM, the slot carries another VM if and only if it carries one and another reservation was granted there since its own |
| Bookings.MarkMeetsItsBookingIffUndisturbed | src/service.rs:52-111 | the mark of a create, sent at one step and accepted at a later one, even after the create was cancelled, marks its own reservation if and only if no other reservation of that slot was granted since its own; then the reply is the VM asked for |
| Bookings.CleanupHitsAnotherIffDisturbed | src/service.rs:86-101 | the reset of a create, sent at one step and taken at a later one, even after the create was cancelled, ends another VM if and only if the slot carries one and another reservation was granted there since its own; its own if and only if the slot carries one and none was |
| Bookings.DeleteCleanupHitsAnotherIffDisturbed | src/service.rs:135-148 | the reset after a refused delete, sent at one step and taken at a later one, even after the delete was cancelled, ends another VM than the one looked up if and only if the slot carries one and a reservation was granted there since the refusal |
| PoolScenarios.CreateCanReturnAnotherVm | src/service.rs:52-58 | a reachable state in which a create succeeded with a VM of another name, in another generation than it reserved |
| PoolScenarios.SameGenerationCanBeAnotherVm | src/slot_supervisor.rs:46-68 | a reachable state, after a worker task failed, in which a create succeeded with a VM of another name in the very generation it reserved |
| PoolScenarios.CleanupCanResetAnotherVm | src/service.rs:86-89 | a reachable state from which the three steps of the cleanup of a refused create reset the reservation of another |
| PoolScenarios.DeleteCleanupCanResetAnotherVm | src/service.rs:135-139 | a reachable state from which the three steps of the cleanup of a refused delete end the VM of a create of another name |
| PoolScenarios.ScaleDownCanWait | src/pool.rs:333-340 | a reachable state, without any failure, in which a scale-down awaits a worker that is still running |
| Pool.ProcessPool.Spawn | src/pool.rs:118-163 | refuses exactly a maximum below the minimum; otherwise starts exactly the minimal number of slots, each empty, unnamed, in generation 0 and with a running worker of its own |
| Pool.ProcessPool.Extend | src/pool.rs:165-183 | appends any number of fresh workers numbered on from the present size and leaves the others alone; the invariant of the pool but for its maximal size stays, and all of it exactly when that is not exceeded or shutdown was announced |
| Pool.ProcessPool.Request | src/pool.rs:195-206 | a reply is what the slot's worker answered at one moment between the call and its return, to a command sent after the call began; without such a moment there is no such slot or its worker ended |
| Pool.ProcessPool.ListVmSlots | src/pool.rs:185-193 | entry i is what slot i replied to a status request that took effect during the scan, one slot after the other; it stops only at a slot whose worker ended |
| Pool.ProcessPool.PoolUsage | src/pool.rs:208-215 | used and idle add up to the size, and idle is the number of slots that replied empty in a whole scan |
| Pool.ProcessPool.FindVmSlotStatusByName | src/pool.rs:225-234 | the first entry of a whole scan with the name, and no other slot has it; when there is none, no slot has the name when it returns |
| Pool.ProcessPool.ReserveVmSlot | src/pool.rs:259-291 | the reply to a reservation with the tap of its slot, which took effect during the call; a grant has the requested name and mac |
| Pool.ProcessPool.AllocateVmSlot | src/pool.rs:293-320 | terminates; refuses the name exactly when a slot replied with it in a whole scan; otherwise scans, and after each whole scan without an empty reply, below the maximal size, grows by exactly one slot and scans again, so the size at the end is the size at the call plus the scans in vain before the last; reserves the first slot that replied empty in the last scan; reports exhaustion only at maximal size after a whole scan without an empty reply; any other error is that of the reservation it sent or of a worker that ended; it sends no other command than that reservation |
| Pool.ProcessPool.MarkVmSlotBooted | src/pool.rs:356-385 | the reply to a mark that took effect during the call; accepted in the booked generation it is the VM asked for, with a process |
| Pool.ProcessPool.ReleaseVmSlot | src/pool.rs:387-406 | the reply to a release that took effect during the call; success means that exactly the generation looked up has ended and the name is free, a refusal that the VM looked up was over or failed |
| Pool.ProcessPool.ResetVmSlot | src/pool.rs:408-427 | a reset is never refused; its reply is the cleared status of the slot at the moment it took effect |
| Pool.ProcessPool.AutoscaleTick | src/pool.rs:322-354 | nothing happens at minimal size or while the last scale-down is less than the cooldown ago; otherwise the last slot is asked during the tick and popped if and only if it replied empty; true means the pool lost exactly its vacant last slot and, before shutdown, that its worker failed; waiting is a result of its own; it sends no command that changes a slot |
| Pool.ProcessPool.Shutdown | src/pool.rs:454-464 | announces shutdown; when it completes the pool is empty and every worker it had was joined |
| Service.WaitForSlotReady | src/service.rs:284-312 | polls at least once, each poll a status the slot had at a moment of the wait; it ends well exactly with the first poll that reported a process while the socket accepted, and as not ready with the first past the deadline; without an error the booked VM, if still there, has a process or failed |
| Service.StartVm | src/service.rs:69-102 | without a snapshot it sends PUT /api/v1/vm.create with a well-formed request for this configuration and reservation, and, unless that is refused, /api/v1/vm.boot; with one exactly /api/v1/vm.restore with the file URL of the snapshot; all to the slot reserved, under one guard; it succeeds exactly when every reply is below 400; an error status sends a reset after the guard was dropped |
| Service.CreateVm | src/service.rs:43-111 | an invalid configuration changes nothing; otherwise allocation, wait, requests, wait and mark happen in this order at moments between call and return, up to the stage that fails; the requests are those of its configuration; a taken name is a conflict, a full pool exhaustion, and any other error is that of its stage; the result is the conversion of the mark's reply, and exactly the VM asked for if the mark met its own reservation; beyond its allocation it sends at most one command that changes a slot, a mark or a reset |
| Service.FindRunning | src/service.rs:121-129 | the first entry of a whole scan with the name, if it replied running, and it stays addressable under the guard; not found, a conflict and a backend error each name what the scan saw |
| Service.DeleteVm | src/service.rs:117-152 | sends shutdown and, exactly if that is answered below 400, delete to the slot its lookup found, while it still runs that VM or none; success means that both were accepted, that the release took effect and ended exactly the generation looked up, and that no slot claims the name; every error names its cause; it sends at most one command that changes a slot, that release or a reset |
| Service.ProxyByName | src/service.rs:171-202 | sends exactly this request to the slot its lookup found, while it still runs that VM or none and no other slot has the name; without a running VM it sends nothing; succeeds if and only if the hypervisor does; it sends no command that changes a slot |
| Text.ParseUnsignedIsExact | src/vm_metrics.rs:117-133 | accepts exactly the decimal numerals below the limit, with or without a plus sign, for their value |
| VmMetrics.StatDependsOnTail | src/vm_metrics.rs:51-65 | the result depends only on what follows the last closing parenthesis |
| VmMetrics.StatRoundTrip | src/vm_metrics.rs:51-91 | a printed line with any command name gives back state, utime, stime and thread count, or names the first field that does not fit its width |
| VmMetrics.CollectedOnce | src/vm_metrics.rs:93-115 | the description of the resulting map determines it |
| VmMetrics.ParseStatusKib | src/vm_metrics.rs:93-115 | for every key the value of its last line with a readable number, and nothing else |
| VmMetrics.StatusRoundTrip | src/vm_metrics.rs:93-115 | of a file printed from any rows, padded by any tabs and blanks and with any line ends, exactly the last numeral of every key is collected; lines without a colon, without a value, or whose first word is no numeral contribute nothing |
| HostMetrics.ParseMeminfoKib | src/host_metrics.rs:229-255 | succeeds exactly when every value is readable, with the same map; otherwise the first unreadable line's key is reported |
| HostMetrics.LenientIsStrictOnReadable | src/host_metrics.rs:229-255 | dropping the unreadable lines from a file, with their line ends, changes nothing for the lenient parser and makes the strict one succeed |
| HostMetrics.ParseBoth | src/host_metrics.rs:229-255 | wherever the strict parser succeeds both return the same map |
| HostMetrics.MeminfoRoundTrip | src/host_metrics.rs:229-255 | a file printed from any rows, padded by any tabs and blanks and with any line ends, is read back, the last numeral of a key winning, unless the first word of some row is no numeral; then the error names the key of the first such row |
| VmValidation.ValidationIsExact | src/vm_validation.rs:4-90 | a configuration passes if and only if it is acceptable, stated without the order of the checks |
| VmValidation.RejectionNamesFirstViolation | src/vm_validation.rs:4-90 | a rejection names the field of the first thing that is wrong, in the order name, cpus, memory, boot mode, memory bound, boot files, disks, other paths |
| VmPayload.ShiftIsExact | src/vm_payload.rs:40-42 | the 64-bit shift loses nothing if and only if the size is at most the one validation admits, which is 2^44 - 1 |
| VmPayload.AcceptedConfigBuildsRequest | src/vm_payload.rs:6-53 | an accepted configuration that restores nothing builds a request with the exact memory size, the configured firmware for uefi in any letter case and otherwise the configured kernel, initramfs and command line, with a present absolute path, its disks in order with the type of their own extension, the tap and mac reserved, and /dev/urandom |
| VmPayload.BootModeCaseIsIrrelevant | src/vm_payload.rs:10-21 | the letter case of the boot mode changes neither verdict nor request |
| VmPayload.ImageTypeFollowsExtension | src/vm_payload.rs:23-33 | qcow2 and qcow are Qcow2 and raw is Raw in any letter case, read off the extension of the last component, whatever the directory and whether or not a slash, or a slash and a dot, follows; any other extension has no type |

## Left out

- Pool.ProcessPool.AutoscaleTick: gives up waiting after the given patience, because the await it stands for need not end; PoolTheorems states the unbounded case.
- Pool.ProcessPool.Shutdown: waits for each worker with the given patience, for the same reason; that workers do end after shutdown is liveness.
- SlotSupervisor.SlotWorker.Supervise: runs for as many turns as its surroundings are described.
- Service.WaitForSlotReady: the deadline is an outcome of each poll and passes at the latest after the polls described; a socket that accepts connections is an outcome too.
- Service.CreateVm: the text of a backend error is not reproduced.
- Service.ProxyByName: models the variant that turns an error status into an error; the one that passes the response through sends its request at the same point under the same guard.
- PoolTheorems.CreateReturnsItsVm: one way only; the exact condition, both ways, is Bookings.MarkMeetsItsBookingIffUndisturbed.
- A kill that fails leaves a process behind (src/slot_supervisor.rs:316-319): claims are about the child handle and about being told to stop.
- Real processes, sockets and files, and the commands that create tap devices: only their outcomes are modelled.
- The generation is unbounded; the 64-bit counter would wrap only after 2^64 reservations.
- HTTP routing, JSON and the mapping of errors to status codes (src/api.rs, src/error.rs), the socket client (src/ch_client.rs) and the one-line delegation of src/pool_facade.rs.
- The MAC address is an arbitrary text: how it is hashed from the name does not matter to the protocol.
- The listing of running VMs and the logging of pool occupancy, whose status queries can be made at any time in the model.
- Floating-point metrics, timestamps and host names in src/host_metrics.rs, command line and signals in src/main.rs, and src/bin/demo-vm.rs.
- Fairness and real time: the clock only moves forward, and nothing is claimed about when a step is taken.
- Paths are sequences of characters; names that are not valid Unicode are not modelled.
