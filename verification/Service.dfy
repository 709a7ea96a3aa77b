/**
 The service operations as programs over the pool object: create, delete and the proxied
 requests, with the lock taken and dropped where the service does it. Outside the lock anything
 may happen to the pool (Elsewhere); inside a read guard only the workers and other readers
 move. The requests sent to the hypervisors are recorded on a wire, each with the pool as it was
 when it was sent.
 */
module Service {
  import opened Slots
  import opened Decimal
  import opened VmValidation
  import opened VmPayload
  import opened Protocol
  import opened ProtocolInvariant
  import opened PoolMoves
  import opened Interference
  import opened Pool

  /** The error classes of the API; only a backend error keeps its text here. */
  datatype ApiError =
    | Validation(rejection: Rejection)
    | NotFoundError
    | ConflictError
    | PoolExhausted
    | BackendFailure(message: string)

  function FromPoolError(error: PoolError): ApiError {
    match error
    case SlotNotFound(_) => NotFoundError
    case VmAlreadyRunning(_) => ConflictError
    case NoAvailableSlot => PoolExhausted
    case InvalidTransition(_, _, _) => ConflictError
    case ChannelClosed => BackendFailure("slot worker channel is closed")
    case Backend(message) => BackendFailure(message)
  }

  predicate Refuses(http: Http) {
    http.TransportError? || http.code >= 400
  }

  /** A reply that lets an operation go on. */
  predicate Accepted(http: Http) {
    http.HttpStatus? && http.code < 400
  }

  // ---------- The hypervisors ----------

  datatype Body = NoBody | CreateBody(request: VmRequest) | RestoreBody(sourceUrl: Option<string>) | Json(text: string)

  /** What is sent to the socket of a slot. */
  datatype HttpCall = HttpCall(slot: nat, path: string, body: Body)

  /** A request, and the pool when it was sent. */
  datatype HttpRequest = HttpRequest(call: HttpCall, at: Shared)

  function CallsOf(requests: seq<HttpRequest>): seq<HttpCall> {
    seq(|requests|, k requires 0 <= k < |requests| => requests[k].call)
  }

  /** The requests one operation sends, in order. */
  class Wire {
    var sent: seq<HttpRequest>

    constructor ()
      ensures sent == []
    {
      sent := [];
    }

    method Put(pool: ProcessPool, slot: nat, path: string, body: Body)
      modifies this
      ensures sent == old(sent) + [HttpRequest(HttpCall(slot, path, body), pool.shared)]
    {
      sent := sent + [HttpRequest(HttpCall(slot, path, body), pool.shared)];
    }
  }

  // ---------- Outside the lock ----------

  /**
   What happens while this task holds no lock: workers move, readers send commands, other
   creates reserve slots and grow the pool, the autoscaler takes slots away, the daemon shuts down.
   */
  method Elsewhere(pool: ProcessPool)
    requires pool.Valid()
    modifies pool
    ensures pool.deeds == old(pool.deeds)
    ensures pool.Valid() && PoolEvolved(old(pool.shared), pool.shared)
  {
    hide PoolOk, TaskOk, PoolEvolved, Interfered, LostItsTail, Allocated;
    ghost var mine := pool.deeds;
    var turns: int := *;
    PoolEvolvedReflexive(pool.shared);
    while turns > 0
      invariant pool.Valid() && PoolEvolved(old(pool.shared), pool.shared)
    {
      ghost var before := pool.shared;
      SomethingHappens(pool);
      PoolEvolvedTransitive(old(pool.shared), before, pool.shared);
      turns := turns - 1;
    }
    pool.deeds := mine;
  }

  method SomethingHappens(pool: ProcessPool)
    requires pool.Valid()
    modifies pool
    ensures pool.Valid() && PoolEvolved(old(pool.shared), pool.shared)
  {
    hide PoolOk, TaskOk, PoolEvolved, Interfered, LostItsTail, Allocated;
    var choice: int := *;
    if choice == 0 {
      var name: string, mac: string := *, *;
      ghost var restore: bool := *;
      var result;
      ghost var run;
      result, run := pool.AllocateVmSlot(name, mac, restore);
    } else if choice == 1 {
      var result;
      ghost var removed, answer;
      result, removed, answer := pool.AutoscaleTick(1);
      if removed.Some? {
        LosingTailEvolves(old(pool.shared), pool.shared);
      } else {
        InterferedEvolves(old(pool.shared), pool.shared);
      }
    } else if choice == 2 {
      var drained := pool.Shutdown(1);
    } else {
      ghost var idle := Task(Autoscale, Start, None, 0);
      IdleIsOk(pool.shared, idle);
      pool.Interfere(idle, None);
      InterferedEvolves(old(pool.shared), pool.shared);
    }
  }

  lemma IdleIsOk(p: Shared, idle: Task)
    requires idle.pc.Start? && idle.call.None? && idle.since == 0
    ensures TaskOk(p, idle)
  {
  }

  /** A task that just took the read guard knows that no reservation was sent since. */
  lemma ReaderIsOk(p: Shared, task: Task)
    requires PoolOk(p) && task.call.None? && task.since == p.nextTicket && GuardOf(task).ReadGuard?
    requires PcOk(p, task)
    ensures TaskOk(p, task)
  {
    hide PcOk;
    NothingFromTheFuture(p);
  }

  // ---------- Waiting ----------

  /** A status request of a slot that was answered. */
  ghost predicate IsPoll(e: Effect, slot: nat) {
    IsEffect(e) && e.slot == slot && e.command == GetVmStatus && EffectReply(e).Ok?
  }

  /** Status requests that took effect one after the other, between the pools `p` and `q`. */
  ghost predicate IsPolling(p: Shared, polls: seq<Effect>, slot: nat, q: Shared) {
    && PoolEvolved(p, q)
    && (forall k :: 0 <= k < |polls| ==> Between(p, polls[k], q) && IsPoll(polls[k], slot))
    && (forall k :: 0 < k < |polls| ==> Follows(polls[k - 1], polls[k]))
  }

  ghost predicate Follows(e: Effect, f: Effect) {
    IsEffect(e) && PoolEvolved(AfterEffect(e), f.before)
  }

  /** What the surroundings contribute to the k-th poll; the deadline passes at the latest when nothing more is described. */
  function PollAt(script: seq<Oracle>, k: nat): Oracle {
    if k < |script| then script[k] else Oracle(false, true, HttpStatus(0), "")
  }

  /** Whether a poll ends the wait: the slot reported a process and its socket accepted a connection. */
  ghost predicate Ready(e: Effect, oracle: Oracle)
    requires IsEffect(e) && EffectReply(e).Ok?
  {
    EffectReply(e).value.pid.Some? && oracle.connected
  }

  /** The first `n` polls neither ended the wait nor met the deadline. */
  ghost predicate StillWaiting(polls: seq<Effect>, n: nat, slot: nat, script: seq<Oracle>) {
    n <= |polls| && forall k :: 0 <= k < n ==> IsPoll(polls[k], slot) && !Ready(polls[k], PollAt(script, k)) && !PollAt(script, k).expired
  }

  const NOT_READY: ApiError := BackendFailure("slot did not become ready")

  /** How a wait ended. */
  ghost predicate Waited(p: Shared, polls: seq<Effect>, slot: nat, script: seq<Oracle>, q: Shared, error: Option<ApiError>) {
    && IsPolling(p, polls, slot, q)
    && match error
       case None =>
         && |polls| > 0 && StillWaiting(polls, |polls| - 1, slot, script)
         && Ready(polls[|polls| - 1], PollAt(script, |polls| - 1))
       case Some(e) =>
         if e == NOT_READY then
           && |polls| > 0 && StillWaiting(polls, |polls| - 1, slot, script)
           && !Ready(polls[|polls| - 1], PollAt(script, |polls| - 1)) && PollAt(script, |polls| - 1).expired
         else StillWaiting(polls, |polls|, slot, script) && exists cause :: e == FromPoolError(cause) && Unserved(q, slot, Err(cause))
  }

  lemma NoPolls(p: Shared, slot: nat)
    ensures IsPolling(p, [], slot, p)
  {
    PoolEvolvedReflexive(p);
  }

  lemma PollsLast(p: Shared, polls: seq<Effect>, slot: nat, q: Shared, r: Shared)
    requires IsPolling(p, polls, slot, q) && PoolEvolved(q, r)
    ensures IsPolling(p, polls, slot, r)
  {
    hide IsEffect, PoolEvolved, IsPoll, Follows;
    PoolEvolvedTransitive(p, q, r);
    forall k | 0 <= k < |polls| ensures Between(p, polls[k], r) && IsPoll(polls[k], slot) {
      PoolEvolvedReflexive(p);
      BetweenWider(p, p, polls[k], q, r);
    }
  }

  lemma PollsGrow(p: Shared, polls: seq<Effect>, slot: nat, q: Shared, e: Effect, r: Shared)
    requires IsPolling(p, polls, slot, q) && Performed(q, e, r) && Interfered(q, r) && IsPoll(e, slot)
    ensures IsPolling(p, polls + [e], slot, r)
  {
    hide IsEffect, PoolEvolved, Interfered, IsPoll, Between;
    InterferedEvolves(q, r);
    PerformedBetween(q, e, r);
    PoolEvolvedReflexive(r);
    BetweenWider(p, q, e, r, r);
    PollsLast(p, polls, slot, q, r);
    if |polls| > 0 {
      LastThen(p, polls, slot, q, e, r);
    }
    assert (polls + [e])[|polls|] == e;
  }

  lemma LastThen(p: Shared, polls: seq<Effect>, slot: nat, q: Shared, e: Effect, r: Shared)
    requires IsPolling(p, polls, slot, q) && Between(q, e, r) && |polls| > 0
    ensures Follows(polls[|polls| - 1], e)
  {
    hide IsEffect, PoolEvolved;
    var last := polls[|polls| - 1];
    assert Between(p, last, q);
    PoolEvolvedTransitive(AfterEffect(last), q, e.before);
  }

  /** Asks the slot for its status under a read guard of its own. */
  method AskStatus(pool: ProcessPool, ghost job: Job, ghost booking: Booking, slot: nat, ghost booted: Option<string>)
    returns (reply: Reply, ghost effect: Option<Effect>)
    requires pool.Valid() && booking.slot == slot && BookingOk(pool.shared, job, booking, booted.Some?)
    modifies pool
    ensures pool.deeds == old(pool.deeds)
    ensures pool.Valid() && Interfered(old(pool.shared), pool.shared)
    ensures match effect
            case Some(e) => Performed(old(pool.shared), e, pool.shared) && IsPoll(e, slot) && EffectReply(e) == reply
            case None => Unserved(pool.shared, slot, reply)
    ensures BookingOk(pool.shared, job, booking, booted.Some?)
    ensures reply.Ok? ==> BookingOk(pool.shared, job, booking, booted.Some? || reply.value.pid.Some?)
  {
    hide PoolOk, Interfered, IsEffect;
    ghost var task := Task(job, ReadyAsk(booking, booted), None, pool.shared.nextTicket);
    ReaderIsOk(pool.shared, task);
    ghost var asking;
    reply, asking, effect := pool.Request(task, slot, GetVmStatus);
    InterferedEvolves(old(pool.shared), pool.shared);
    BookingSurvives(old(pool.shared), pool.shared, job, booking, booted.Some?);
    if effect.Some? {
      StatusIsGiven(effect.value, reply);
      ReadyLearned(pool.shared, asking, slot, reply.value);
    }
  }

  lemma ReadyLearned(p: Shared, asking: Task, slot: nat, status: SlotStatus)
    requires PoolOk(p) && asking.pc.ReadyAsk? && Learned(p, asking, slot, Ok(status))
    ensures BookingOk(p, asking.job, asking.pc.booking, asking.pc.booted.Some? || status.pid.Some?)
  {
    ReadyFromReply(p, asking, p.slots[slot].id, status);
  }

  /**
   Polls the slot until it has a process and its socket accepts a connection, or the deadline
   has passed; the first poll decides that does. If it returns without an error, the booked VM,
   if it is still there, has a process or has failed.
   */
  method WaitForSlotReady(pool: ProcessPool, ghost job: Job, ghost booking: Booking, slot: nat, ghost booted: Option<string>, script: seq<Oracle>)
    returns (error: Option<ApiError>, ghost polls: seq<Effect>)
    requires pool.Valid() && booking.slot == slot && BookingOk(pool.shared, job, booking, booted.Some?)
    modifies pool
    ensures pool.deeds == old(pool.deeds)
    ensures pool.Valid() && PoolEvolved(old(pool.shared), pool.shared)
    ensures Waited(old(pool.shared), polls, slot, script, pool.shared, error)
    ensures error.None? ==>
              && |polls| > 0 && EffectReply(polls[|polls| - 1]).value.pid.Some?
              && PollAt(script, |polls| - 1).connected
    ensures error == Some(NOT_READY) ==> |polls| > 0 && PollAt(script, |polls| - 1).expired
    ensures error.None? ==> BookingOk(pool.shared, job, booking, true)
  {
    hide PoolOk, PoolEvolved, Interfered, IsEffect, IsPolling, BookingOk, Unserved;
    polls := [];
    var i := 0;
    NoPolls(pool.shared, slot);
    PoolEvolvedReflexive(pool.shared);
    while true
      invariant pool.deeds == old(pool.deeds)
      invariant i == |polls| <= |script| && pool.Valid() && PoolEvolved(old(pool.shared), pool.shared)
      invariant IsPolling(old(pool.shared), polls, slot, pool.shared) && StillWaiting(polls, |polls|, slot, script)
      invariant BookingOk(pool.shared, job, booking, booted.Some?)
      decreases |script| - i
    {
      var reply;
      reply, polls := PollOnce(pool, job, booking, slot, booted, old(pool.shared), polls);
      if reply.Err? {
        return Some(FromPoolError(reply.error)), polls;
      }
      ghost var asked := pool.shared;
      Elsewhere(pool);
      PollsLast(old(pool.shared), polls, slot, asked, pool.shared);
      PoolEvolvedTransitive(old(pool.shared), asked, pool.shared);
      BookingSurvives(asked, pool.shared, job, booking, booted.Some? || reply.value.pid.Some?);
      BookingSurvives(asked, pool.shared, job, booking, booted.Some?);
      var oracle := PollAt(script, i);
      if reply.value.pid.Some? && oracle.connected {
        return None, polls;
      }
      if oracle.expired {
        return Some(NOT_READY), polls;
      }
      i := i + 1;
    }
  }

  /** One poll of a wait that began with the pool `p`. */
  method PollOnce(pool: ProcessPool, ghost job: Job, ghost booking: Booking, slot: nat, ghost booted: Option<string>, ghost p: Shared, ghost polls: seq<Effect>)
    returns (reply: Reply, ghost polls': seq<Effect>)
    requires pool.Valid() && booking.slot == slot && BookingOk(pool.shared, job, booking, booted.Some?)
    requires IsPolling(p, polls, slot, pool.shared)
    modifies pool
    ensures pool.deeds == old(pool.deeds)
    ensures pool.Valid() && PoolEvolved(p, pool.shared) && IsPolling(p, polls', slot, pool.shared)
    ensures match reply
            case Ok(status) => |polls'| == |polls| + 1 && polls'[..|polls|] == polls && IsPoll(polls'[|polls|], slot) && EffectReply(polls'[|polls|]) == reply
            case Err(error) => polls' == polls && Unserved(pool.shared, slot, Err(error)) && FromPoolError(error) != NOT_READY
    ensures BookingOk(pool.shared, job, booking, booted.Some?)
    ensures reply.Ok? ==> BookingOk(pool.shared, job, booking, booted.Some? || reply.value.pid.Some?)
  {
    hide PoolOk, PoolEvolved, Interfered, IsEffect, BookingOk, IsPolling;
    ghost var effect;
    reply, effect := AskStatus(pool, job, booking, slot, booted);
    if effect.Some? {
      polls' := polls + [effect.value];
      PollsGrow(p, polls, slot, old(pool.shared), effect.value, pool.shared);
    } else {
      polls' := polls;
      InterferedEvolves(old(pool.shared), pool.shared);
      PollsLast(p, polls, slot, old(pool.shared), pool.shared);
    }
    PollingEvolves(p, polls', slot, pool.shared);
  }

  lemma PollingEvolves(p: Shared, polls: seq<Effect>, slot: nat, q: Shared)
    requires IsPolling(p, polls, slot, q)
    ensures PoolEvolved(p, q)
  {
  }

  // ---------- Cleaning up ----------

  /** A reset sent after `p`: it took effect, or the slot or its worker is gone. */
  ghost predicate ResetSent(p: Shared, slot: nat, effect: Option<Effect>, q: Shared) {
    match effect
    case Some(e) => Between(p, e, q) && e.slot == slot && e.command == ResetVm
    case None => exists reply :: Unserved(q, slot, reply)
  }

  /** Resets a slot whose VM the hypervisor refused; errors are ignored. The guard was dropped before. */
  method CleanupReservedVm(pool: ProcessPool, slot: nat, ghost job: Job, ghost booked: Option<Booking>) returns (ghost effect: Option<Effect>)
    requires pool.Valid()
    requires booked.Some? ==> booked.value.slot == slot && BookingOk(pool.shared, job, booked.value, true)
    modifies pool
    ensures Did(old(pool.deeds), pool.deeds, slot, ResetVm, effect.Some?)
    ensures pool.Valid() && PoolEvolved(old(pool.shared), pool.shared)
    ensures ResetSent(old(pool.shared), slot, effect, pool.shared)
  {
    hide PoolOk, PoolEvolved, Interfered, IsEffect, BookingOk, Unserved;
    Elsewhere(pool);
    ghost var before := pool.shared;
    if booked.Some? {
      BookingSurvives(old(pool.shared), before, job, booked.value, true);
    }
    ghost var task := Task(job, Cleanup(slot, booked), None, pool.shared.nextTicket);
    ReaderIsOk(pool.shared, task);
    var reply;
    reply, effect := pool.ResetVmSlot(task, slot);
    InterferedEvolves(before, pool.shared);
    PoolEvolvedTransitive(old(pool.shared), before, pool.shared);
    if effect.Some? {
      PerformedBetween(before, effect.value, pool.shared);
      PoolEvolvedReflexive(pool.shared);
      BetweenWider(old(pool.shared), before, effect.value, pool.shared, pool.shared);
    }
  }

  // ---------- Create ----------

  /** The reservation that took effect: slot, worker and generation. */
  ghost function BookedBy(e: Effect): Booking
    requires IsEffect(e)
  {
    Booking(e.slot, e.before.slots[e.slot].id, AfterEffect(e).slots[e.slot].rt.status.generation)
  }

  lemma GrantBooks(q: Shared, e: Effect, name: string, mac: string, restore: bool, status: SlotStatus)
    requires PoolOk(q) && IsEffect(e) && e.command == ReserveVm(name, mac, TapName(e.slot)) && EffectReply(e) == Ok(status)
    requires Interfered(AfterEffect(e), q)
    ensures status.slot == e.slot && BookingOk(q, Create(name, mac, restore), BookedBy(e), false)
  {
    SameShape(AfterEffect(e), q);
    assert WorkerOk(q, e.slot, q.slots[e.slot]);
    assert WorkerOk(e.before, e.slot, e.before.slots[e.slot]);
  }

  /** The reservation of a create, under the write guard. */
  method Reserve(pool: ProcessPool, name: string, mac: string, ghost restore: bool) returns (result: Reply, ghost run: Allocation)
    requires pool.Valid()
    modifies pool
    ensures AllocationDid(old(pool.deeds), pool.deeds, run, name, mac)
    ensures pool.Valid() && PoolEvolved(old(pool.shared), pool.shared)
    ensures Allocated(old(pool.shared), run, pool.shared, name, mac, result)
    ensures result.Ok? ==>
              result.value.slot == run.effect.value.slot && BookingOk(pool.shared, Create(name, mac, restore), BookedBy(run.effect.value), false)
  {
    hide PoolOk, PoolEvolved, Interfered, IsEffect, BookingOk, IsScan;
    result, run := pool.AllocateVmSlot(name, mac, restore);
    if result.Ok? {
      GrantBooks(pool.shared, run.effect.value, name, mac, restore, result.value);
    }
  }

  /** The request that creates or restores the VM. */
  function CreateCall(slot: nat, config: BootConfig, reserved: SlotStatus): HttpCall {
    if config.snapshotPath.Some? then HttpCall(slot, "/api/v1/vm.restore", RestoreBody(Some("file://" + config.snapshotPath.value)))
    else HttpCall(slot, "/api/v1/vm.create", CreateBody(CreateVmRequestBody(config, reserved)))
  }

  /**
   The requests a create sends to its slot: one that restores the snapshot, if there is one;
   otherwise one that creates the VM as configured, and, unless that is refused, one that boots it.
   */
  ghost predicate StartsVm(calls: seq<HttpCall>, slot: nat, config: BootConfig, reserved: SlotStatus, create: Http) {
    && |calls| == (if config.snapshotPath.None? && Accepted(create) then 2 else 1)
    && (forall k :: 0 <= k < |calls| ==> calls[k].slot == slot)
    && (if config.snapshotPath.Some? then
          calls[0].path == "/api/v1/vm.restore" && calls[0].body == RestoreBody(Some("file://" + config.snapshotPath.value))
        else
          && calls[0].path == "/api/v1/vm.create" && calls[0].body.CreateBody?
          && (ValidateBootConfig(config).None? ==> WellFormedRequest(calls[0].body.request, config, reserved)))
    && (|calls| == 2 ==> calls[1].path == "/api/v1/vm.boot" && calls[1].body == NoBody)
  }

  lemma CallStartsVm(slot: nat, config: BootConfig, reserved: SlotStatus, create: Http)
    ensures var call, boot := CreateCall(slot, config, reserved), HttpCall(slot, "/api/v1/vm.boot", NoBody);
            && call.slot == slot
            && (config.snapshotPath.Some? || !Accepted(create) ==> StartsVm([call], slot, config, reserved, create))
            && (config.snapshotPath.None? && Accepted(create) ==> StartsVm([call, boot], slot, config, reserved, create))
  {
    hide ValidateBootConfig, WellFormedRequest, CreateVmRequestBody;
    if config.snapshotPath.None? && ValidateBootConfig(config).None? {
      AcceptedConfigBuildsRequest(config, reserved);
    }
  }

  /** Requests sent under one read guard, between the pools `p` and `q`. */
  ghost predicate SentWithin(p: Shared, sent: seq<HttpRequest>, q: Shared) {
    && 0 < |sent| <= 2 && PoolEvolved(p, sent[0].at) && PoolEvolved(sent[|sent| - 1].at, q)
    && (|sent| == 2 ==> Interfered(sent[0].at, sent[1].at))
  }

  /** A refusal with a status, as opposed to a failed transport. */
  predicate RefusedByStatus(http: Http) {
    http.HttpStatus? && http.code >= 400
  }

  lemma SentOne(p: Shared, r: HttpRequest, q: Shared)
    requires PoolEvolved(p, r.at) && PoolEvolved(r.at, q)
    ensures SentWithin(p, [r], q) && CallsOf([r]) == [r.call]
  {
    assert CallsOf([r])[0] == r.call;
  }

  lemma SentTwo(p: Shared, r: HttpRequest, r': HttpRequest, q: Shared)
    requires PoolEvolved(p, r.at) && Interfered(r.at, r'.at) && PoolEvolved(r'.at, q)
    ensures SentWithin(p, [r, r'], q) && CallsOf([r, r']) == [r.call, r'.call]
  {
    assert CallsOf([r, r'])[0] == r.call && CallsOf([r, r'])[1] == r'.call;
  }

  /** What a refusal comes to; one with a status resets the slot after the guard was dropped. */
  method Refused(pool: ProcessPool, slot: nat, ghost job: Job, ghost booked: Option<Booking>, response: Http)
    returns (error: ApiError, ghost cleanup: Option<Effect>)
    requires pool.Valid() && Refuses(response)
    requires booked.Some? ==> booked.value.slot == slot && BookingOk(pool.shared, job, booked.value, true)
    modifies pool
    ensures if RefusedByStatus(response) then Did(old(pool.deeds), pool.deeds, slot, ResetVm, cleanup.Some?)
            else pool.deeds == old(pool.deeds)
    ensures pool.Valid() && PoolEvolved(old(pool.shared), pool.shared) && error.BackendFailure?
    ensures if RefusedByStatus(response) then ResetSent(old(pool.shared), slot, cleanup, pool.shared)
            else cleanup.None? && pool.shared == old(pool.shared) && error == BackendFailure(response.message)
  {
    hide PoolOk, PoolEvolved, BookingOk, ResetSent;
    PoolEvolvedReflexive(pool.shared);
    match response {
      case TransportError(message) => return BackendFailure(message), None;
      case HttpStatus(_) =>
        cleanup := CleanupReservedVm(pool, slot, job, booked);
        return BackendFailure("backend returned an error status"), cleanup;
    }
  }

  lemma RequestingIsOk(p: Shared, job: Job, booking: Booking, pc: Pc)
    requires PoolOk(p) && BookingOk(p, job, booking, true) && (pc.PutCreate? || pc.PutBoot?) && pc.booking == booking
    ensures TaskOk(p, Task(job, pc, None, p.nextTicket))
  {
    ReaderIsOk(p, Task(job, pc, None, p.nextTicket));
  }

  /** The requests that create and boot the VM, under one read guard; `None` when the VM is on its way. */
  method StartVm(pool: ProcessPool, wire: Wire, ghost job: Job, ghost booking: Booking, config: BootConfig, reserved: SlotStatus,
                 startedAt: string, create: Http, boot: Http)
    returns (error: Option<ApiError>, ghost sent: seq<HttpRequest>, ghost cleanup: Option<Effect>)
    requires pool.Valid() && booking.slot == reserved.slot && BookingOk(pool.shared, job, booking, true)
    modifies pool, wire
    ensures if error.Some? && RefusedByStatus(if Accepted(create) then boot else create)
            then Did(old(pool.deeds), pool.deeds, reserved.slot, ResetVm, cleanup.Some?)
            else pool.deeds == old(pool.deeds)
    ensures pool.Valid() && PoolEvolved(old(pool.shared), pool.shared)
    ensures wire.sent == old(wire.sent) + sent && SentWithin(old(pool.shared), sent, pool.shared)
    ensures StartsVm(CallsOf(sent), reserved.slot, config, reserved, create)
    ensures error.None? <==> Accepted(create) && (config.snapshotPath.Some? || Accepted(boot))
    ensures error.None? ==> BookingOk(pool.shared, job, booking, true)
    ensures error.Some? ==>
              && error.value.BackendFailure?
              && (RefusedByStatus(if Accepted(create) then boot else create) ==> ResetSent(sent[|sent| - 1].at, reserved.slot, cleanup, pool.shared))
  {
    hide PoolOk, TaskOk, PoolEvolved, Interfered, BookingOk, ResetSent, CreateCall, StartsVm;
    cleanup := None;
    var slot := reserved.slot;
    Elsewhere(pool);
    BookingSurvives(old(pool.shared), pool.shared, job, booking, true);
    wire.Put(pool, slot, CreateCall(slot, config, reserved).path, CreateCall(slot, config, reserved).body);
    ghost var first := HttpRequest(CreateCall(slot, config, reserved), pool.shared);
    CallStartsVm(slot, config, reserved, create);
    if Refuses(create) {
      var failure;
      failure, cleanup := Refused(pool, slot, job, Some(booking), create);
      SentOne(old(pool.shared), first, pool.shared);
      PoolEvolvedTransitive(old(pool.shared), first.at, pool.shared);
      return Some(failure), [first], cleanup;
    }
    AnsweredUnderGuard(pool, job, booking, PutCreate(booking, startedAt));
    InterferedEvolves(first.at, pool.shared);
    PoolEvolvedTransitive(old(pool.shared), first.at, pool.shared);
    if config.snapshotPath.Some? {
      SentOne(old(pool.shared), first, pool.shared);
      return None, [first], None;
    }
    wire.Put(pool, slot, "/api/v1/vm.boot", NoBody);
    ghost var second := HttpRequest(HttpCall(slot, "/api/v1/vm.boot", NoBody), pool.shared);
    if Refuses(boot) {
      var failure;
      failure, cleanup := Refused(pool, slot, job, Some(booking), boot);
      SentTwo(old(pool.shared), first, second, pool.shared);
      PoolEvolvedTransitive(old(pool.shared), second.at, pool.shared);
      return Some(failure), [first, second], cleanup;
    }
    AnsweredUnderGuard(pool, job, booking, PutBoot(booking, startedAt));
    InterferedEvolves(second.at, pool.shared);
    PoolEvolvedTransitive(old(pool.shared), second.at, pool.shared);
    SentTwo(old(pool.shared), first, second, pool.shared);
    return None, [first, second], None;
  }

  /** While a request is answered the guard is held: workers and other readers move on. */
  method AnsweredUnderGuard(pool: ProcessPool, ghost job: Job, ghost booking: Booking, ghost pc: Pc)
    requires pool.Valid() && BookingOk(pool.shared, job, booking, true) && (pc.PutCreate? || pc.PutBoot?) && pc.booking == booking
    modifies pool
    ensures pool.deeds == old(pool.deeds)
    ensures pool.Valid() && Interfered(old(pool.shared), pool.shared) && BookingOk(pool.shared, job, booking, true)
  {
    hide PoolOk, TaskOk, Interfered, BookingOk;
    RequestingIsOk(pool.shared, job, booking, pc);
    pool.Interfere(Task(job, pc, None, pool.shared.nextTicket), None);
    InterferedEvolves(old(pool.shared), pool.shared);
    BookingSurvives(old(pool.shared), pool.shared, job, booking, true);
  }

  /** The mark at the end of a create, under a read guard of its own. */
  method MarkBooted(pool: ProcessPool, ghost job: Job, ghost booking: Booking, slot: nat, startedAt: string)
    returns (reply: Reply, ghost effect: Option<Effect>)
    requires pool.Valid() && booking.slot == slot && BookingOk(pool.shared, job, booking, true)
    modifies pool
    ensures Did(old(pool.deeds), pool.deeds, slot, MarkVmBooted(startedAt), effect.Some?)
    ensures pool.Valid() && Interfered(old(pool.shared), pool.shared)
    ensures match effect
            case Some(e) =>
              && Performed(old(pool.shared), e, pool.shared) && e.slot == slot && e.command == MarkVmBooted(startedAt) && EffectReply(e) == reply
              && (reply.Ok? ==> Settled(job, booking, startedAt, e.before.slots[slot].id, reply.value))
              && (reply.Err? ==> reply.error.InvalidTransition?)
            case None => Unserved(pool.shared, slot, reply)
  {
    hide PoolOk, TaskOk, Interfered, BookingOk;
    ghost var task := Task(job, Mark(booking, startedAt), None, pool.shared.nextTicket);
    MarkIsOk(pool.shared, job, booking, startedAt);
    reply, effect := pool.MarkVmSlotBooted(task, booking, slot, startedAt);
    if effect.Some? {
      SameShape(AfterEffect(effect.value), pool.shared);
    }
  }

  lemma MarkIsOk(p: Shared, job: Job, booking: Booking, startedAt: string)
    requires PoolOk(p) && BookingOk(p, job, booking, true)
    ensures TaskOk(p, Task(job, Mark(booking, startedAt), None, p.nextTicket))
  {
    ReaderIsOk(p, Task(job, Mark(booking, startedAt), None, p.nextTicket));
  }

  /** What the surroundings contribute to one create: polls of the socket, the replies of the hypervisor, the time. */
  datatype Surroundings = Surroundings(mac: string, now: string, firstWait: seq<Oracle>, secondWait: seq<Oracle>, create: Http, boot: Http)

  /** The task of the protocol that this create is. */
  function JobOf(config: BootConfig, env: Surroundings): Job {
    Create(config.name, env.mac, config.snapshotPath.Some?)
  }

  /** The mark of a create, between `p` and `q`: it took effect, or the slot or its worker is gone. */
  ghost predicate MarkSent(p: Shared, slot: nat, startedAt: string, effect: Option<Effect>, reply: Reply, q: Shared) {
    match effect
    case Some(e) => Performed(p, e, q) && e.slot == slot && e.command == MarkVmBooted(startedAt) && EffectReply(e) == reply
    case None => Unserved(q, slot, reply)
  }

  /** What a create returns for the reply to its mark. */
  function MarkResult(reply: Reply): Result<VmRuntime, ApiError> {
    match reply
    case Err(error) => Err(FromPoolError(error))
    case Ok(status) =>
      match TryIntoRuntime(status)
      case Ok(runtime) => Ok(runtime)
      case Err(error) => Err(FromPoolError(error))
  }

  /** The stages of a create after its reservation, each with the pool at its end. */
  datatype Finish = Finish(
    firstWait: seq<Effect>,
    firstError: Option<ApiError>,
    ready: Shared,
    sent: seq<HttpRequest>,
    startError: Option<ApiError>,
    cleanup: Option<Effect>,
    started: Shared,
    secondWait: seq<Effect>,
    secondError: Option<ApiError>,
    waited: Shared,
    marked: Option<Effect>,
    mark: Reply)

  /** The create went through these stages, as far as it got, from `p` to `q`. */
  ghost predicate Finished(p: Shared, f: Finish, q: Shared, config: BootConfig, env: Surroundings, reserved: SlotStatus, result: Result<VmRuntime, ApiError>) {
    && Waited(p, f.firstWait, reserved.slot, env.firstWait, f.ready, f.firstError)
    && if f.firstError.Some? then f.sent == [] && f.marked.None? && q == f.ready && result == Err(f.firstError.value)
       else Started(f, q, config, env, reserved, result)
  }

  ghost predicate Started(f: Finish, q: Shared, config: BootConfig, env: Surroundings, reserved: SlotStatus, result: Result<VmRuntime, ApiError>) {
    && SentWithin(f.ready, f.sent, f.started) && StartsVm(CallsOf(f.sent), reserved.slot, config, reserved, env.create)
    && (f.startError.None? <==> Accepted(env.create) && (config.snapshotPath.Some? || Accepted(env.boot)))
    && if f.startError.Some? then
         && f.marked.None? && q == f.started && result == Err(f.startError.value) && f.startError.value.BackendFailure?
         && (RefusedByStatus(if Accepted(env.create) then env.boot else env.create) ==>
               ResetSent(f.sent[|f.sent| - 1].at, reserved.slot, f.cleanup, f.started))
       else
         && Waited(f.started, f.secondWait, reserved.slot, env.secondWait, f.waited, f.secondError)
         && if f.secondError.Some? then f.marked.None? && q == f.waited && result == Err(f.secondError.value)
            else MarkSent(f.waited, reserved.slot, env.now, f.marked, f.mark, q) && result == MarkResult(f.mark)
  }

  /** What a create does to the pool after its reservation: nothing, one reset after an error status, or one mark at its end. */
  ghost predicate FinishDid(before: seq<Deed>, after: seq<Deed>, f: Finish, slot: nat, env: Surroundings) {
    if f.firstError.Some? then after == before
    else if f.startError.Some? then
      if RefusedByStatus(if Accepted(env.create) then env.boot else env.create) then Did(before, after, slot, ResetVm, f.cleanup.Some?)
      else after == before
    else if f.secondError.Some? then after == before
    else Did(before, after, slot, MarkVmBooted(env.now), f.marked.Some?)
  }

  /** A create from its reservation on. */
  method FinishCreate(pool: ProcessPool, wire: Wire, config: BootConfig, env: Surroundings, ghost booking: Booking, reserved: SlotStatus)
    returns (result: Result<VmRuntime, ApiError>, ghost f: Finish)
    requires pool.Valid() && booking.slot == reserved.slot && BookingOk(pool.shared, JobOf(config, env), booking, false)
    modifies pool, wire
    ensures FinishDid(old(pool.deeds), pool.deeds, f, reserved.slot, env)
    ensures pool.Valid() && PoolEvolved(old(pool.shared), pool.shared)
    ensures wire.sent == old(wire.sent) + f.sent && Finished(old(pool.shared), f, pool.shared, config, env, reserved, result)
    ensures f.marked.Some? && f.mark.Ok? ==>
              Settled(JobOf(config, env), booking, env.now, f.marked.value.before.slots[reserved.slot].id, f.mark.value)
    ensures result != Err(PoolExhausted)
  {
    hide PoolOk, TaskOk, PoolEvolved, BookingOk, Waited, SentWithin, IsEffect, ResetSent, StartsVm, Interfered, Settled;
    ghost var job := JobOf(config, env);
    var slot := reserved.slot;
    ghost var p := pool.shared;
    f := Finish([], None, p, [], None, None, p, [], None, p, None, Err(NoAvailableSlot));
    var error;
    ghost var polls;
    error, polls := WaitForSlotReady(pool, job, booking, slot, None, env.firstWait);
    f := f.(firstWait := polls, firstError := error, ready := pool.shared);
    if error.Some? {
      WaitErrors(p, polls, slot, env.firstWait, pool.shared, error);
      return Err(error.value), f;
    }
    ghost var sent, cleanup;
    error, sent, cleanup := StartVm(pool, wire, job, booking, config, reserved, env.now, env.create, env.boot);
    PoolEvolvedTransitive(p, f.ready, pool.shared);
    f := f.(sent := sent, startError := error, cleanup := cleanup, started := pool.shared);
    if error.Some? {
      return Err(error.value), f;
    }
    error, polls := WaitForSlotReady(pool, job, booking, slot, Some(env.now), env.secondWait);
    PoolEvolvedTransitive(p, f.started, pool.shared);
    f := f.(secondWait := polls, secondError := error, waited := pool.shared);
    if error.Some? {
      WaitErrors(f.started, polls, slot, env.secondWait, pool.shared, error);
      return Err(error.value), f;
    }
    var reply;
    ghost var marked;
    reply, marked := MarkBooted(pool, job, booking, slot, env.now);
    InterferedEvolves(f.waited, pool.shared);
    PoolEvolvedTransitive(p, f.waited, pool.shared);
    f := f.(marked := marked, mark := reply);
    return MarkResult(reply), f;
  }

  lemma WaitErrors(p: Shared, polls: seq<Effect>, slot: nat, script: seq<Oracle>, q: Shared, error: Option<ApiError>)
    requires Waited(p, polls, slot, script, q, error) && error.Some?
    ensures error.value == NOT_READY || error.value == NotFoundError || error.value == FromPoolError(ChannelClosed)
  {
    hide IsPolling, StillWaiting;
  }

  /** A whole create: the pool when it took the lock, its allocation, the pool and the reply after that, and the rest. */
  datatype Creation = Creation(start: Shared, run: Allocation, booked: Shared, reply: Reply, finish: Option<Finish>)

  ghost predicate IsCreation(p: Shared, c: Creation, q: Shared, config: BootConfig, env: Surroundings, result: Result<VmRuntime, ApiError>) {
    && PoolEvolved(p, c.start) && Allocated(c.start, c.run, c.booked, config.name, env.mac, c.reply)
    && match c.reply
       case Err(error) => c.finish.None? && q == c.booked && result == Err(FromPoolError(error))
       case Ok(reserved) => c.finish.Some? && Finished(c.booked, c.finish.value, q, config, env, reserved, result)
  }

  /** What a create does to the pool: what its allocation does, and then, if it got a slot, what its later stages do. */
  ghost predicate CreationDid(before: seq<Deed>, after: seq<Deed>, c: Creation, config: BootConfig, env: Surroundings) {
    exists reserved :: AllocationDid(before, reserved, c.run, config.name, env.mac)
      && if c.reply.Ok? && c.finish.Some? then FinishDid(reserved, after, c.finish.value, c.reply.value.slot, env) else after == reserved
  }

  /** The mark met the reservation of this create: the same worker, in the generation it was granted. */
  ghost predicate MeetsItsOwn(c: Creation) {
    && c.reply.Ok? && c.run.effect.Some? && IsEffect(c.run.effect.value)
    && c.finish.Some? && c.finish.value.marked.Some? && c.finish.value.mark.Ok?
    && var e := c.finish.value.marked.value;
       var booking := BookedBy(c.run.effect.value);
       && booking.slot < |e.before.slots| && e.before.slots[booking.slot].id == booking.worker
       && c.finish.value.mark.value.generation == booking.generation
  }

  /**
   Creates a VM. A configuration that is not acceptable changes nothing. Otherwise the call is an
   allocation, a wait, the requests that start the VM, another wait and the mark, each at moments
   of the pool between the beginning and the end; and what it returns is the VM it was asked for
   if the mark met its own reservation. MarkMeetsItsBookingIffUndisturbed in Bookings says when it does.
   */
  method CreateVm(pool: ProcessPool, wire: Wire, config: BootConfig, env: Surroundings)
    returns (result: Result<VmRuntime, ApiError>, ghost creation: Option<Creation>)
    requires pool.Valid()
    modifies pool, wire
    ensures match creation
            case None => pool.deeds == old(pool.deeds)
            case Some(c) => CreationDid(old(pool.deeds), pool.deeds, c, config, env)
    ensures pool.Valid() && PoolEvolved(old(pool.shared), pool.shared)
    ensures match ValidateBootConfig(config)
            case Some(rejection) =>
              && creation.None? && result == Err(Validation(rejection))
              && pool.shared == old(pool.shared) && wire.sent == old(wire.sent)
            case None =>
              && creation.Some? && IsCreation(old(pool.shared), creation.value, pool.shared, config, env, result)
              && wire.sent == old(wire.sent) + (if creation.value.finish.Some? then creation.value.finish.value.sent else [])
    ensures creation.Some? && MeetsItsOwn(creation.value) ==>
              && creation.value.finish.value.mark.value.pid.Some?
              && result == Ok(VmRuntime(config.name, env.mac, TapName(creation.value.reply.value.slot),
                                        creation.value.finish.value.mark.value.pid.value, env.now))
    ensures result == Err(PoolExhausted) ==> |pool.shared.slots| >= pool.shared.config.max
    // what it sent to the slot it reserved
    ensures creation.Some? && creation.value.finish.Some? ==>
              var sent, reserved := creation.value.finish.value.sent, creation.value.reply.value;
              && |sent| <= 2 && (forall k :: 0 <= k < |sent| ==> sent[k].call.slot == reserved.slot)
              && (config.snapshotPath.None? && |sent| > 0 ==>
                    && sent[0].call.path == "/api/v1/vm.create" && sent[0].call.body.CreateBody?
                    && WellFormedRequest(sent[0].call.body.request, config, reserved))
              && (config.snapshotPath.Some? && |sent| > 0 ==>
                    && |sent| == 1 && sent[0].call.path == "/api/v1/vm.restore"
                    && sent[0].call.body == RestoreBody(Some("file://" + config.snapshotPath.value)))
              && (|sent| == 2 ==> sent[1].call.path == "/api/v1/vm.boot" && sent[1].call.body == NoBody)
    // what it answers when nothing was reserved
    ensures creation.Some? && creation.value.reply.Err? ==>
              match creation.value.reply.error
              case VmAlreadyRunning(_) => result == Err(ConflictError)
              case InvalidTransition(_, _, _) => result == Err(ConflictError)
              case NoAvailableSlot => result == Err(PoolExhausted)
              case Backend(message) => result == Err(BackendFailure(message))
              case _ => result.Err? && result.error.BackendFailure?
  {
    hide PoolOk, TaskOk, PoolEvolved, BookingOk, Finished, IsEffect, Interfered, IsScan, ValidateBootConfig, WellFormedRequest, CallsOf, Fruitless;
    creation := None;
    PoolEvolvedReflexive(pool.shared);
    var rejection := ValidateBootConfig(config);
    if rejection.Some? {
      return Err(Validation(rejection.value)), None;
    }
    Elsewhere(pool);
    ghost var start := pool.shared;
    var reply;
    ghost var run;
    reply, run := Reserve(pool, config.name, env.mac, config.snapshotPath.Some?);
    ghost var booked := pool.shared;
    PoolEvolvedTransitive(old(pool.shared), start, booked);
    if reply.Err? {
      RefusalsAre(start, run, booked, config.name, env.mac, reply);
      return Err(FromPoolError(reply.error)), Some(Creation(start, run, booked, reply, None));
    }
    ghost var finish;
    result, finish := FinishCreate(pool, wire, config, env, BookedBy(run.effect.value), reply.value);
    PoolEvolvedTransitive(old(pool.shared), booked, pool.shared);
    creation := Some(Creation(start, run, booked, reply, Some(finish)));
    SentAsConfigured(creation.value, pool.shared, config, env, result);
    if MeetsItsOwn(creation.value) {
      OwnMarkReturnsOwnVm(creation.value, pool.shared, config, env, result);
    }
  }

  lemma RefusalsAre(p: Shared, run: Allocation, q: Shared, name: string, mac: string, reply: Reply)
    requires Allocated(p, run, q, name, mac, reply)
    ensures reply.Err? ==> !reply.error.SlotNotFound?
  {
    hide IsScan, IsEffect, Interfered, Fruitless, Reserves;
  }

  lemma SentAsConfigured(c: Creation, q: Shared, config: BootConfig, env: Surroundings, result: Result<VmRuntime, ApiError>)
    requires c.reply.Ok? && c.finish.Some? && Finished(c.booked, c.finish.value, q, config, env, c.reply.value, result)
    requires ValidateBootConfig(config).None?
    ensures var sent, reserved := c.finish.value.sent, c.reply.value;
            && |sent| <= 2 && (forall k :: 0 <= k < |sent| ==> sent[k].call.slot == reserved.slot)
            && (config.snapshotPath.None? && |sent| > 0 ==>
                  && sent[0].call.path == "/api/v1/vm.create" && sent[0].call.body.CreateBody?
                  && WellFormedRequest(sent[0].call.body.request, config, reserved))
            && (config.snapshotPath.Some? && |sent| > 0 ==>
                  && |sent| == 1 && sent[0].call.path == "/api/v1/vm.restore"
                  && sent[0].call.body == RestoreBody(Some("file://" + config.snapshotPath.value)))
            && (|sent| == 2 ==> sent[1].call.path == "/api/v1/vm.boot" && sent[1].call.body == NoBody)
  {
    hide Waited, SentWithin, ResetSent, MarkSent, ValidateBootConfig, WellFormedRequest;
    var sent := c.finish.value.sent;
    assert forall k :: 0 <= k < |sent| ==> CallsOf(sent)[k] == sent[k].call;
  }

  lemma OwnMarkReturnsOwnVm(c: Creation, q: Shared, config: BootConfig, env: Surroundings, result: Result<VmRuntime, ApiError>)
    requires MeetsItsOwn(c) && Finished(c.booked, c.finish.value, q, config, env, c.reply.value, result)
    requires c.reply.value.slot == c.run.effect.value.slot
    requires var f := c.finish.value;
             Settled(JobOf(config, env), BookedBy(c.run.effect.value), env.now,
                     f.marked.value.before.slots[c.reply.value.slot].id, f.mark.value)
    ensures var mark := c.finish.value.mark.value;
            && mark.pid.Some?
            && result == Ok(VmRuntime(config.name, env.mac, TapName(c.reply.value.slot), mark.pid.value, env.now))
  {
    hide Waited, SentWithin, ResetSent, StartsVm, MarkSent;
  }

  // ---------- Lookup ----------

  /** What a lookup by name came to: the whole scan and the entry it found, or a worker that ended on the way. */
  ghost predicate LookedUp(p: Shared, lookup: Scan, name: string, result: Result<SlotStatus, ApiError>) {
    && PoolEvolved(p, lookup.from) && IsScan(lookup)
    && match result
       case Ok(status) => IsWholeScan(lookup) && FoundAs(lookup, name, status) && status.state.Occupied? && FoundAlone(lookup.until, name, status)
       case Err(NotFoundError) => IsWholeScan(lookup) && FirstNamed(lookup.seen, name).None? && Unknown(lookup.until, name)
       case Err(ConflictError) =>
         IsWholeScan(lookup) && exists status :: FoundAs(lookup, name, status) && !status.state.Occupied?
       case Err(error) => error == FromPoolError(ChannelClosed) && StoppedAt(lookup)
  }

  /** The first entry of the scan with this name. */
  ghost predicate FoundAs(lookup: Scan, name: string, status: SlotStatus) {
    FirstNamed(lookup.seen, name).Some? && status == lookup.seen[FirstNamed(lookup.seen, name).value]
  }

  lemma LookupIsOk(p: Shared, job: Job)
    requires PoolOk(p) && (job.Delete? || job.Proxy?)
    ensures TaskOk(p, Task(job, FindByName([]), None, p.nextTicket))
  {
    ReaderIsOk(p, Task(job, FindByName([]), None, p.nextTicket));
  }

  /** Finds the running VM of this name, under a read guard that is still held afterwards. */
  method FindRunning(pool: ProcessPool, ghost job: Job, name: string)
    returns (result: Result<SlotStatus, ApiError>, ghost since: nat, ghost lookup: Scan)
    requires pool.Valid() && (job.Delete? || job.Proxy?) && job.name == name
    modifies pool
    ensures pool.deeds == old(pool.deeds)
    ensures pool.Valid() && lookup.until == pool.shared
    ensures LookedUp(old(pool.shared), lookup, name, result)
    ensures result.Ok? ==>
              TargetOk(pool.shared, job, since, result.value) && since <= pool.shared.nextTicket && NoneReserves(pool.shared, since)
  {
    hide PoolOk, TaskOk, PoolEvolved, Interfered, IsScan, IsEffect;
    Elsewhere(pool);
    since := pool.shared.nextTicket;
    ghost var task := Task(job, FindByName([]), None, since);
    LookupIsOk(pool.shared, job);
    var found;
    found, lookup := pool.FindVmSlotStatusByName(name, task);
    if found.Err? {
      return Err(FromPoolError(found.error)), since, lookup;
    }
    if found.value.None? {
      return Err(NotFoundError), since, lookup;
    }
    var status := found.value.value;
    assert FoundAs(lookup, name, status);
    if status.state != Occupied {
      return Err(ConflictError), since, lookup;
    }
    WholeScanIsFull(lookup);
    TargetFound(pool.shared, task, lookup.seen, name, status);
    return Ok(status), since, lookup;
  }

  lemma TargetFound(p: Shared, task: Task, seen: seq<SlotStatus>, name: string, status: SlotStatus)
    requires TaskOk(p, task.(pc := FindByName(seen))) && task.call.None? && |seen| == |p.slots|
    requires (task.job.Delete? || task.job.Proxy?) && task.job.name == name
    requires FirstNamed(seen, name).Some? && status == seen[FirstNamed(seen, name).value] && status.state.Occupied?
    ensures TargetOk(p, task.job, task.since, status)
    ensures task.since <= p.nextTicket && NoneReserves(p, task.since)
  {
    assert AllocationOk(p, task.(pc := FindByName(seen)));
  }

  /** The VM looked up is safe to address: its slot still runs it in that generation, or no VM; and no other slot has its name. */
  ghost predicate Addressable(p: Shared, target: SlotStatus) {
    && target.slot < |p.slots| && SoleName(p, target.slot, target)
    && var now := p.slots[target.slot].rt.status;
       if now.name.Some? then now.generation == target.generation && now.name == target.name else now.generation > target.generation
  }

  lemma TargetIsAddressable(p: Shared, job: Job, since: nat, target: SlotStatus)
    requires TargetOk(p, job, since, target)
    ensures Addressable(p, target)
  {
  }

  /** While a request to the target is answered the guard is held. */
  method AnsweredToTarget(pool: ProcessPool, ghost task: Task)
    requires pool.Valid() && TargetOf(task.pc).Some? && task.call.None? && GuardOf(task).ReadGuard? && JobFits(task.job, task.pc)
    requires TargetOk(pool.shared, task.job, task.since, TargetOf(task.pc).value) && task.since <= pool.shared.nextTicket
    requires NoneReserves(pool.shared, task.since)
    modifies pool
    ensures pool.deeds == old(pool.deeds)
    ensures pool.Valid() && Interfered(old(pool.shared), pool.shared) && TaskOk(pool.shared, task)
    ensures TargetOk(pool.shared, task.job, task.since, TargetOf(task.pc).value) && task.since <= pool.shared.nextTicket
    ensures NoneReserves(pool.shared, task.since)
  {
    hide PoolOk, Interfered, TargetOk, NoneReserves;
    pool.Interfere(task, None);
  }

  // ---------- Delete ----------

  /** The requests a delete sends to the slot of its target: shutdown, and, unless that is refused, delete. */
  predicate EndsVm(calls: seq<HttpCall>, slot: nat, shutdown: Http) {
    && |calls| == (if Accepted(shutdown) then 2 else 1)
    && calls[0] == HttpCall(slot, "/api/v1/vm.shutdown", NoBody)
    && (|calls| == 2 ==> calls[1] == HttpCall(slot, "/api/v1/vm.delete", NoBody))
  }

  /** What a delete did: its lookup, its requests, and the release or the cleanup at its end. */
  datatype Deletion = Deletion(lookup: Scan, sent: seq<HttpRequest>, released: Option<Effect>, cleanup: Option<Effect>)

  /** The requests were sent under the guard of the lookup, each while the target was addressable. */
  ghost predicate SentToTarget(from: Shared, sent: seq<HttpRequest>, target: SlotStatus) {
    && 0 < |sent| <= 2
    && Interfered(from, sent[0].at) && (|sent| == 2 ==> Interfered(sent[0].at, sent[1].at))
    && forall k :: 0 <= k < |sent| ==> Addressable(sent[k].at, target)
  }

  /** The release of a delete, sent under the guard of its lookup. */
  ghost predicate ReleaseSent(p: Shared, target: SlotStatus, effect: Option<Effect>, result: Result<(), ApiError>, q: Shared) {
    match effect
    case None => result == Err(FromPoolError(ChannelClosed)) && SomeoneEnded(q)
    case Some(e) =>
      && Performed(p, e, q) && e.slot == target.slot && e.command == ReleaseVm
      && match EffectReply(e)
         case Ok(status) =>
           && result == Ok(()) && status.state.Empty? && status.generation == target.generation + 1
           && target.name.Some? && NameIsGone(q, target.name.value)
         case Err(error) =>
           result == Err(ConflictError) && target.slot < |q.slots| && Overtaken(target, q.slots[target.slot].rt.status)
  }

  ghost predicate IsDeletion(p: Shared, d: Deletion, q: Shared, name: string, shutdown: Http, delete: Http, result: Result<(), ApiError>) {
    if d.sent == [] then
      d.released.None? && d.cleanup.None? && q == d.lookup.until && result.Err? && LookedUp(p, d.lookup, name, Err(result.error))
    else exists target ::
      && LookedUp(p, d.lookup, name, Ok(target)) && SentToTarget(d.lookup.until, d.sent, target)
      && EndsVm(CallsOf(d.sent), target.slot, shutdown)
      && var response := if Accepted(shutdown) then delete else shutdown;
         var last := d.sent[|d.sent| - 1].at;
         if !Accepted(response) then
           && d.released.None? && result.Err? && result.error.BackendFailure?
           && (RefusedByStatus(response) ==> ResetSent(last, target.slot, d.cleanup, q))
         else d.cleanup.None? && ReleaseSent(last, target, d.released, result, q)
  }

  /**
   Deletes a VM by name. It sends its requests to the slot it looked up, under the guard of that
   lookup. If none is refused, success means that the release took effect and ended exactly the
   generation looked up, and no slot claims the name any more; a refusal of the hypervisor resets
   the slot after the guard was dropped.
   */
  method DeleteVm(pool: ProcessPool, wire: Wire, name: string, shutdown: Http, delete: Http)
    returns (result: Result<(), ApiError>, ghost d: Deletion)
    requires pool.Valid()
    modifies pool, wire
    ensures pool.deeds == old(pool.deeds)
            || (&& d.sent != []
                && pool.deeds == old(pool.deeds) + [Issued(d.sent[0].call.slot, if Accepted(shutdown) && Accepted(delete) then ReleaseVm else ResetVm)])
    ensures d.released.Some? || d.cleanup.Some? ==> pool.deeds != old(pool.deeds)
    ensures pool.Valid() && wire.sent == old(wire.sent) + d.sent
    ensures IsDeletion(old(pool.shared), d, pool.shared, name, shutdown, delete, result)
    // shutdown first, and delete only if that was not refused
    ensures |d.sent| <= 2
    ensures d.sent != [] ==> d.sent[0].call.path == "/api/v1/vm.shutdown" && d.sent[0].call.body == NoBody
    ensures |d.sent| == 2 ==> d.sent[1].call.path == "/api/v1/vm.delete" && d.sent[1].call.body == NoBody
    ensures |d.sent| == 2 <==> d.sent != [] && shutdown.HttpStatus? && shutdown.code < 400
    ensures result.Ok? ==> |d.sent| == 2 && delete.HttpStatus? && delete.code < 400
  {
    hide PoolOk, TaskOk, PoolEvolved, Interfered, IsScan, IsEffect, LookedUp, Addressable, SentToTarget, ReleaseSent, ResetSent, TargetOk, NoneReserves;
    ghost var job := Delete(name);
    var found;
    ghost var since, lookup;
    found, since, lookup := FindRunning(pool, job, name);
    d := Deletion(lookup, [], None, None);
    if found.Err? {
      return Err(found.error), d;
    }
    result, d := DeleteFound(pool, wire, job, since, lookup, found.value, shutdown, delete);
  }

  /** A delete from its lookup on. */
  method DeleteFound(pool: ProcessPool, wire: Wire, ghost job: Job, ghost since: nat, ghost lookup: Scan, target: SlotStatus, shutdown: Http, delete: Http)
    returns (result: Result<(), ApiError>, ghost d: Deletion)
    requires pool.Valid() && job.Delete? && lookup.until == pool.shared
    requires TargetOk(pool.shared, job, since, target) && since <= pool.shared.nextTicket && NoneReserves(pool.shared, since)
    modifies pool, wire
    ensures pool.deeds == old(pool.deeds)
            || pool.deeds == old(pool.deeds) + [Issued(target.slot, if Accepted(shutdown) && Accepted(delete) then ReleaseVm else ResetVm)]
    ensures d.released.Some? || d.cleanup.Some? ==> pool.deeds != old(pool.deeds)
    ensures pool.Valid() && wire.sent == old(wire.sent) + d.sent && d.lookup == lookup
    ensures d.sent != [] && SentToTarget(lookup.until, d.sent, target) && EndsVm(CallsOf(d.sent), target.slot, shutdown)
    ensures var response := if Accepted(shutdown) then delete else shutdown;
            var last := d.sent[|d.sent| - 1].at;
            if !Accepted(response) then
              && d.released.None? && result.Err? && result.error.BackendFailure?
              && (RefusedByStatus(response) ==> ResetSent(last, target.slot, d.cleanup, pool.shared))
            else d.cleanup.None? && ReleaseSent(last, target, d.released, result, pool.shared)
  {
    hide PoolOk, TaskOk, PoolEvolved, Interfered, IsEffect, Addressable, ReleaseSent, ResetSent, TargetOk, NoneReserves;
    var slot := target.slot;
    InterferedReflexive(pool.shared);
    TargetIsAddressable(pool.shared, job, since, target);
    wire.Put(pool, slot, "/api/v1/vm.shutdown", NoBody);
    ghost var first := HttpRequest(HttpCall(slot, "/api/v1/vm.shutdown", NoBody), pool.shared);
    assert CallsOf([first]) == [first.call];
    if Refuses(shutdown) {
      var failure;
      ghost var cleanup;
      failure, cleanup := Refused(pool, slot, job, None, shutdown);
      return Err(failure), Deletion(lookup, [first], None, cleanup);
    }
    AnsweredToTarget(pool, Task(job, PutShutdown(target), None, since));
    TargetIsAddressable(pool.shared, job, since, target);
    wire.Put(pool, slot, "/api/v1/vm.delete", NoBody);
    ghost var second := HttpRequest(HttpCall(slot, "/api/v1/vm.delete", NoBody), pool.shared);
    assert CallsOf([first, second]) == [first.call, second.call];
    if Refuses(delete) {
      var failure;
      ghost var cleanup;
      failure, cleanup := Refused(pool, slot, job, None, delete);
      return Err(failure), Deletion(lookup, [first, second], None, cleanup);
    }
    ghost var effect;
    result, effect := ReleaseTarget(pool, job, since, target);
    return result, Deletion(lookup, [first, second], effect, None);
  }

  /** The release at the end of a delete. */
  method ReleaseTarget(pool: ProcessPool, ghost job: Job, ghost since: nat, target: SlotStatus) returns (result: Result<(), ApiError>, ghost effect: Option<Effect>)
    requires pool.Valid() && job.Delete?
    requires TargetOk(pool.shared, job, since, target) && since <= pool.shared.nextTicket && NoneReserves(pool.shared, since)
    modifies pool
    ensures Did(old(pool.deeds), pool.deeds, target.slot, ReleaseVm, effect.Some?)
    ensures pool.Valid() && ReleaseSent(old(pool.shared), target, effect, result, pool.shared)
  {
    hide PoolOk, TaskOk, Interfered, IsEffect, TargetOk, NoneReserves, NameIsGone, Overtaken, SomeoneEnded;
    ghost var task := Task(job, Release(target), None, since);
    AnsweredToTarget(pool, task);
    ghost var before := pool.shared;
    var reply;
    reply, effect := pool.ReleaseVmSlot(task, target, target.slot);
    if effect.Some? {
      InterferedReflexive(pool.shared);
      WithinWider(old(pool.shared), before, effect.value, pool.shared, pool.shared);
    }
    result := if reply.Err? then Err(FromPoolError(reply.error)) else Ok(());
  }

  // ---------- Proxy ----------

  datatype Proxying = Proxying(lookup: Scan, sent: seq<HttpRequest>)

  ghost predicate IsProxying(p: Shared, d: Proxying, q: Shared, name: string, path: string, body: Body, response: Http, result: Result<nat, ApiError>) {
    if d.sent == [] then
      q == d.lookup.until && result.Err? && LookedUp(p, d.lookup, name, Err(result.error))
    else exists target ::
      && LookedUp(p, d.lookup, name, Ok(target)) && SentToTarget(d.lookup.until, d.sent, target)
      && CallsOf(d.sent) == [HttpCall(target.slot, path, body)]
      && Interfered(d.sent[0].at, q) && Addressable(q, target)
      && result == match response
                   case TransportError(message) => Err(BackendFailure(message))
                   case HttpStatus(code) => if code >= 400 then Err(BackendFailure("backend returned an error status")) else Ok(code)
  }

  /**
   Sends a request to the running VM of this name. When it is sent, and as long as the guard is
   held, the slot still runs that VM, in the generation looked up, or none.
   */
  method ProxyByName(pool: ProcessPool, wire: Wire, name: string, path: string, body: Body, response: Http)
    returns (result: Result<nat, ApiError>, ghost d: Proxying)
    requires pool.Valid()
    modifies pool, wire
    ensures pool.deeds == old(pool.deeds)
    ensures pool.Valid() && wire.sent == old(wire.sent) + d.sent
    ensures IsProxying(old(pool.shared), d, pool.shared, name, path, body, response, result)
  {
    hide PoolOk, TaskOk, PoolEvolved, Interfered, IsScan, IsEffect, LookedUp, Addressable, TargetOk, NoneReserves;
    ghost var job := Proxy(name);
    var found;
    ghost var since, lookup;
    found, since, lookup := FindRunning(pool, job, name);
    d := Proxying(lookup, []);
    if found.Err? {
      return Err(found.error), d;
    }
    ghost var target := found.value;
    InterferedReflexive(pool.shared);
    TargetIsAddressable(pool.shared, job, since, target);
    wire.Put(pool, found.value.slot, path, body);
    ghost var request := HttpRequest(HttpCall(found.value.slot, path, body), pool.shared);
    d := Proxying(lookup, [request]);
    assert CallsOf(d.sent) == [request.call];
    AnsweredToTarget(pool, Task(job, PutAction(target), None, since));
    TargetIsAddressable(pool.shared, job, since, target);
    match response {
      case TransportError(message) => return Err(BackendFailure(message)), d;
      case HttpStatus(code) =>
        if code >= 400 {
          return Err(BackendFailure("backend returned an error status")), d;
        }
        return Ok(code), d;
    }
  }
}
