/**
 What others may do to the pool: between two steps of a task under the lock (Interfered), and
 while a task holds no lock (PoolEvolved); and what a task can say of a command it sent, namely
 the one moment at which a worker took it (Effect).
 */
module Interference {
  import opened Slots
  import opened SlotSteps
  import opened Protocol
  import opened ProtocolInvariant
  import opened WorkerSteps
  import opened TaskSteps
  import opened PoolMoves

  /** What the workers and the other holders of a read guard may change, and what they may not. */
  ghost predicate Interfered(p: Shared, p': Shared) {
    && p'.config == p.config && p'.nextWorker == p.nextWorker && p'.joined == p.joined && p'.shutdown == p.shutdown
    && p'.lastScaleDown == p.lastScaleDown && p'.scaleDowns == p.scaleDowns && p.clock <= p'.clock
    && p.nextTicket <= p'.nextTicket
    && |p'.slots| == |p.slots|
    && forall i :: 0 <= i < |p.slots| ==>
         && p'.slots[i].id == p.slots[i].id && Since(p.slots[i].rt.status, p'.slots[i].rt.status)
         && (!p.slots[i].task.Running? ==> !p'.slots[i].task.Running?)
  }

  /** Some worker of the pool left its loop or failed. */
  ghost predicate SomeoneEnded(p: Shared) {
    exists i :: 0 <= i < |p.slots| && !p.slots[i].task.Running?
  }

  lemma InterferedTransitive(p: Shared, q: Shared, r: Shared)
    requires Interfered(p, q) && Interfered(q, r)
    ensures Interfered(p, r)
  {
    forall i | 0 <= i < |p.slots| ensures Since(p.slots[i].rt.status, r.slots[i].rt.status) {
      assert Since(p.slots[i].rt.status, q.slots[i].rt.status);
      assert Since(q.slots[i].rt.status, r.slots[i].rt.status);
    }
  }

  /**
   How the pool may have changed while a task did not hold the lock: a slot is served by the
   worker it had, which evolved, or by a worker started since.
   */
  ghost predicate PoolEvolved(p: Shared, p': Shared) {
    && p'.config == p.config && p.nextWorker <= p'.nextWorker && p.nextTicket <= p'.nextTicket
    && forall i :: 0 <= i < |p'.slots| ==>
         (i < |p.slots| && p'.slots[i].id == p.slots[i].id && Since(p.slots[i].rt.status, p'.slots[i].rt.status))
         || p.nextWorker <= p'.slots[i].id
  }

  lemma SinceTransitive(a: SlotStatus, b: SlotStatus, c: SlotStatus)
    requires Since(a, b) && Since(b, c)
    ensures Since(a, c)
  {
  }

  lemma PoolEvolvedTransitive(p: Shared, q: Shared, r: Shared)
    requires PoolEvolved(p, q) && PoolEvolved(q, r)
    ensures PoolEvolved(p, r)
  {
    forall i | 0 <= i < |r.slots|
      ensures (i < |p.slots| && r.slots[i].id == p.slots[i].id && Since(p.slots[i].rt.status, r.slots[i].rt.status))
              || p.nextWorker <= r.slots[i].id
    {
      if i < |q.slots| && r.slots[i].id == q.slots[i].id && i < |p.slots| && q.slots[i].id == p.slots[i].id {
        if Since(p.slots[i].rt.status, q.slots[i].rt.status) && Since(q.slots[i].rt.status, r.slots[i].rt.status) {
          SinceTransitive(p.slots[i].rt.status, q.slots[i].rt.status, r.slots[i].rt.status);
        }
      }
    }
  }

  lemma InterferedEvolves(p: Shared, p': Shared)
    requires Interfered(p, p')
    ensures PoolEvolved(p, p')
  {
  }

  lemma SameSlotsEvolve(p: Shared, p': Shared)
    requires p'.config == p.config && p.nextWorker <= p'.nextWorker && p.nextTicket <= p'.nextTicket
    requires |p.slots| <= |p'.slots| && p'.slots[..|p.slots|] == p.slots
    requires forall i :: |p.slots| <= i < |p'.slots| ==> p.nextWorker <= p'.slots[i].id
    ensures PoolEvolved(p, p')
  {
    forall i | 0 <= i < |p.slots| ensures p'.slots[i] == p.slots[i] {
      assert p'.slots[..|p.slots|][i] == p.slots[i];
    }
  }

  /** The last slot is gone; the others are still served by their workers. */
  ghost predicate LostItsTail(p: Shared, p': Shared) {
    && |p'.slots| == |p.slots| - 1
    && p'.config == p.config && p'.nextWorker == p.nextWorker && p.nextTicket <= p'.nextTicket
    && forall i :: 0 <= i < |p'.slots| ==>
         p'.slots[i].id == p.slots[i].id && Since(p.slots[i].rt.status, p'.slots[i].rt.status)
  }

  lemma LosingTailEvolves(p: Shared, p': Shared)
    requires LostItsTail(p, p')
    ensures PoolEvolved(p, p')
  {
  }

  lemma PopLosesTail(p: Shared)
    requires |p.slots| > 0
    ensures LostItsTail(p, Moved(p, Pop))
  {
  }

  lemma InterferedThenLost(p: Shared, q: Shared, r: Shared)
    requires Interfered(p, q) && LostItsTail(q, r)
    ensures LostItsTail(p, r)
  {
    forall i | 0 <= i < |r.slots| ensures Since(p.slots[i].rt.status, r.slots[i].rt.status) {
      SinceTransitive(p.slots[i].rt.status, q.slots[i].rt.status, r.slots[i].rt.status);
    }
  }

  lemma LostThenInterfered(p: Shared, q: Shared, r: Shared)
    requires LostItsTail(p, q) && Interfered(q, r)
    ensures LostItsTail(p, r)
  {
    forall i | 0 <= i < |r.slots| ensures Since(p.slots[i].rt.status, r.slots[i].rt.status) {
      SinceTransitive(p.slots[i].rt.status, q.slots[i].rt.status, r.slots[i].rt.status);
    }
  }

  /** A reservation stays what it was, or is over, whatever happens outside the lock. */
  lemma BookingSurvives(p: Shared, p': Shared, job: Job, booking: Booking, ready: bool)
    requires PoolEvolved(p, p') && BookingOk(p, job, booking, ready)
    ensures BookingOk(p', job, booking, ready)
  {
  }

  /** The VM looked up is over, or failed. */
  ghost predicate Overtaken(target: SlotStatus, now: SlotStatus) {
    now.generation > target.generation || (now.generation == target.generation && now.state.Failed?)
  }

  /** No slot carries the name, and no reservation of it is queued. */
  ghost predicate NameIsGone(p: Shared, name: string) {
    forall i :: 0 <= i < |p.slots| ==> !Claims(p.slots[i], name)
  }

  lemma ReleasedNameIsGone(p: Shared, task: Task, target: SlotStatus, after: SlotStatus)
    requires TaskOk(p, task) && task.pc == Release(target) && target.slot < |p.slots|
    requires StatusOk(p, task, target.slot, p.slots[target.slot].id, after)
    ensures target.name.Some? && NameIsGone(p, target.name.value)
  {
    assert TargetOk(p, task.job, task.since, target);
    assert SoleName(p, target.slot, target);
    forall i | 0 <= i < |p.slots| ensures !Claims(p.slots[i], target.name.value) {
      assert i == target.slot ==> NameOf(p.slots[i]).None?;
    }
  }

  /** An unanswered call is still in the queue of a running worker. */
  ghost predicate Pending(p: Shared, task: Task) {
    task.call.Some? && task.call.value.ticket !in p.answers ==>
      && task.call.value.slot < |p.slots|
      && p.slots[task.call.value.slot].task.Running?
      && exists e :: e in p.slots[task.call.value.slot].mailbox && e.ticket == task.call.value.ticket
  }

  lemma PendingAfterStep(p: Shared, i: nat, event: WorkerEvent, task: Task)
    requires WorkerEnabled(p, i, event) && Pending(p, task)
    ensures Pending(WorkerStepped(p, i, event), task)
  {
    if task.call.Some? && task.call.value.ticket !in WorkerStepped(p, i, event).answers && task.call.value.slot == i {
      var e :| e in p.slots[i].mailbox && e.ticket == task.call.value.ticket;
      assert e.ticket in Tickets(p.slots[i].mailbox);
      if event.Take? {
        var k :| 0 <= k < |p.slots[i].mailbox| && p.slots[i].mailbox[k] == e;
        assert k > 0;
        assert p.slots[i].mailbox[1..][k - 1] == e;
      }
    }
  }

  lemma PendingAfterPost(p: Shared, slot: nat, command: Command, task: Task)
    requires MayPost(p, slot, command) && Pending(p, task)
    ensures Pending(Posted(p, slot, command), task)
  {
  }

  lemma StepInterferes(p: Shared, i: nat, event: WorkerEvent)
    requires PoolOk(p) && WorkerEnabled(p, i, event)
    ensures Interfered(p, WorkerStepped(p, i, event))
  {
    assert WorkerOk(p, i, p.slots[i]);
    forall k | 0 <= k < |p.slots|
      ensures Since(p.slots[k].rt.status, WorkerStepped(p, i, event).slots[k].rt.status)
    {
      if k == i {
        SinceKept(p.slots[i].rt.status, p.slots[i], event);
      }
    }
  }

  lemma PostKeepsPool(p: Shared, slot: nat, command: Command)
    requires PoolOk(p) && MayPost(p, slot, command) && !command.ReserveVm?
    ensures PoolOk(Posted(p, slot, command)) && Interfered(p, Posted(p, slot, command))
  {
    PostKeepsSlots(p, slot, command);
    PostKeepsNames(p, slot, command);
  }

  lemma PassInterferes(p: Shared, time: nat, task: Task)
    requires Pending(p, task)
    ensures Interfered(p, Later(p, time)) && Pending(Later(p, time), task)
  {
  }

  lemma PassKeepsPool(p: Shared, time: nat)
    requires PoolOk(p)
    ensures PoolOk(Later(p, time))
  {
    SamePool(p, Later(p, time));
  }

  lemma PassIsFine(p: Shared, time: nat, task: Task)
    requires PoolOk(p) && TaskOk(p, task) && Pending(p, task)
    ensures PoolOk(Later(p, time)) && TaskOk(Later(p, time), task)
    ensures Interfered(p, Later(p, time)) && Pending(Later(p, time), task)
  {
    PassInterferes(p, time, task);
    PassKeepsPool(p, time);
    PassKeepsTask(p, time, task);
  }

  // ---------- Commands taking effect ----------

  /** A command taking effect: the pool just before the worker of `slot` takes it from its queue. */
  datatype Effect = Effect(before: Shared, slot: nat, ticket: nat, command: Command, tapError: Option<string>)

  ghost predicate IsEffect(e: Effect) {
    && PoolOk(e.before) && WorkerEnabled(e.before, e.slot, Take(e.tapError))
    && e.before.slots[e.slot].mailbox[0] == Envelope(e.ticket, e.command)
  }

  /** The pool just after, and the reply the worker gave. */
  ghost function AfterEffect(e: Effect): Shared
    requires IsEffect(e)
  {
    WorkerStepped(e.before, e.slot, Take(e.tapError))
  }

  ghost function EffectReply(e: Effect): Reply
    requires IsEffect(e)
  {
    ReplyTo(e.before.slots[e.slot].rt, e.command, e.tapError)
  }

  /** The command took effect between the pools `p` and `q`, under the lock. */
  ghost predicate Within(p: Shared, e: Effect, q: Shared) {
    IsEffect(e) && Interfered(p, e.before) && Interfered(AfterEffect(e), q)
  }

  /** It was also sent after `p`. */
  ghost predicate Performed(p: Shared, e: Effect, q: Shared) {
    Within(p, e, q) && p.nextTicket <= e.ticket
  }

  /** The same across times without the lock. */
  ghost predicate Between(p: Shared, e: Effect, q: Shared) {
    IsEffect(e) && PoolEvolved(p, e.before) && PoolEvolved(AfterEffect(e), q) && p.nextTicket <= e.ticket
  }

  lemma WithinWider(o: Shared, p: Shared, e: Effect, q: Shared, r: Shared)
    requires Interfered(o, p) && Within(p, e, q) && Interfered(q, r)
    ensures Within(o, e, r)
    ensures Performed(p, e, q) ==> Performed(o, e, r)
  {
    InterferedTransitive(o, p, e.before);
    InterferedTransitive(AfterEffect(e), q, r);
  }

  lemma InterferedReflexive(p: Shared)
    ensures Interfered(p, p)
  {
  }

  lemma PoolEvolvedReflexive(p: Shared)
    ensures PoolEvolved(p, p)
  {
  }

  lemma PerformedBetween(p: Shared, e: Effect, q: Shared)
    requires Performed(p, e, q)
    ensures Between(p, e, q)
  {
    hide IsEffect, Interfered, PoolEvolved;
    InterferedEvolves(p, e.before);
    InterferedEvolves(AfterEffect(e), q);
  }

  lemma BetweenWider(o: Shared, p: Shared, e: Effect, q: Shared, r: Shared)
    requires PoolEvolved(o, p) && Between(p, e, q) && PoolEvolved(q, r)
    ensures Between(o, e, r)
  {
    assert o.nextTicket <= p.nextTicket;
    hide IsEffect, PoolEvolved;
    PoolEvolvedTransitive(o, p, e.before);
    PoolEvolvedTransitive(AfterEffect(e), q, r);
  }

  // ---------- Scans ----------

  /** A scan of the slots: the pool before and after it, the statuses it was told, and when. */
  datatype Scan = Scan(from: Shared, effects: seq<Effect>, seen: seq<SlotStatus>, until: Shared)

  /** Entry `i` is what slot `i` replied to a status request that took effect during the scan. */
  ghost predicate EntryOk(scan: Scan, i: nat)
    requires i < |scan.effects| && i < |scan.seen|
  {
    && Performed(scan.from, scan.effects[i], scan.until)
    && scan.effects[i].slot == i && scan.effects[i].command == GetVmStatus
    && EffectReply(scan.effects[i]) == Ok(scan.seen[i])
  }

  /** One effect came after the other. */
  ghost predicate Before(e: Effect, f: Effect) {
    IsEffect(e) && Interfered(AfterEffect(e), f.before)
  }

  /** The slots were asked one after the other, from the first on. */
  ghost predicate IsScan(scan: Scan) {
    && Interfered(scan.from, scan.until)
    && |scan.effects| == |scan.seen| <= |scan.until.slots|
    && (forall i :: 0 <= i < |scan.seen| ==> EntryOk(scan, i))
    && (forall i :: 0 < i < |scan.effects| ==> Before(scan.effects[i - 1], scan.effects[i]))
  }

  /** The scan stopped at a slot whose worker had ended. */
  ghost predicate StoppedAt(scan: Scan) {
    |scan.seen| < |scan.until.slots| && !scan.until.slots[|scan.seen|].task.Running?
  }

  /** Every slot was asked. */
  ghost predicate IsWholeScan(scan: Scan) {
    IsScan(scan) && |scan.seen| == |scan.until.slots|
  }

  lemma EmptyScan(p: Shared)
    ensures IsScan(Scan(p, [], [], p))
  {
    InterferedReflexive(p);
  }

  function Longer(scan: Scan, e: Effect, status: SlotStatus, q: Shared): Scan {
    Scan(scan.from, scan.effects + [e], scan.seen + [status], q)
  }

  lemma EntryStays(scan: Scan, e: Effect, status: SlotStatus, q: Shared, i: nat)
    requires i < |scan.effects| == |scan.seen| && EntryOk(scan, i) && Interfered(scan.until, q)
    ensures EntryOk(Longer(scan, e, status, q), i)
  {
    hide IsEffect, Interfered;
    InterferedReflexive(scan.from);
    WithinWider(scan.from, scan.from, scan.effects[i], scan.until, q);
  }

  lemma NextIsLater(scan: Scan, e: Effect, q: Shared)
    requires IsScan(scan) && Performed(scan.until, e, q) && |scan.effects| > 0
    ensures Before(scan.effects[|scan.effects| - 1], e)
  {
    hide IsEffect, Interfered;
    var last := scan.effects[|scan.effects| - 1];
    assert EntryOk(scan, |scan.effects| - 1);
    InterferedTransitive(AfterEffect(last), scan.until, e.before);
  }

  lemma ScanGrows(scan: Scan, e: Effect, status: SlotStatus, q: Shared)
    requires IsScan(scan) && Performed(scan.until, e, q) && Interfered(scan.until, q)
    requires e.slot == |scan.seen| < |q.slots| && e.command == GetVmStatus && EffectReply(e) == Ok(status)
    ensures IsScan(Longer(scan, e, status, q))
  {
    hide IsEffect, Interfered;
    var longer := Longer(scan, e, status, q);
    InterferedTransitive(scan.from, scan.until, q);
    InterferedReflexive(q);
    WithinWider(scan.from, scan.until, e, q, q);
    forall i | 0 <= i < |longer.seen| ensures EntryOk(longer, i) {
      if i < |scan.seen| {
        EntryStays(scan, e, status, q, i);
      }
    }
    forall i | 0 < i < |longer.effects| ensures Before(longer.effects[i - 1], longer.effects[i]) {
      if i < |scan.effects| {
        assert Before(scan.effects[i - 1], scan.effects[i]);
      } else {
        NextIsLater(scan, e, q);
      }
    }
  }

  // ---------- Answers ----------

  /** Whether this step would answer the ticket. */
  predicate Answers(w: Worker, event: WorkerEvent, held: Option<nat>)
    requires WorkerCan(w, true, event)
  {
    held.Some? && held.value in NewAnswers(w, event)
  }

  /** The ticket has the answer it had, or none as before. */
  ghost predicate KeepsAnswer(p: Shared, q: Shared, held: Option<nat>) {
    held.Some? ==>
      && (held.value in q.answers <==> held.value in p.answers)
      && (held.value in p.answers ==> q.answers[held.value] == p.answers[held.value])
  }

  /** How a call was answered: a worker took it between `p` and `q` and replied, or ended without. */
  ghost predicate Resolved(p: Shared, q: Shared, call: Call, effect: Option<Effect>) {
    && call.ticket in q.answers && call.slot < |q.slots|
    && match q.answers[call.ticket]
       case Lost => effect.None? && !q.slots[call.slot].task.Running?
       case Answer(_, reply) =>
         && effect.Some? && Within(p, effect.value, q)
         && effect.value.slot == call.slot && effect.value.ticket == call.ticket && effect.value.command == call.command
         && EffectReply(effect.value) == reply
  }

  lemma ResolvedEarlier(o: Shared, p: Shared, q: Shared, call: Call, effect: Option<Effect>)
    requires Interfered(o, p) && Resolved(p, q, call, effect)
    ensures Resolved(o, q, call, effect)
  {
    hide IsEffect, Interfered;
    InterferedReflexive(q);
    if effect.Some? && Within(p, effect.value, q) {
      WithinWider(o, p, effect.value, q, q);
    }
  }

  lemma EndResolves(p: Shared, task: Task, slot: nat, event: WorkerEvent)
    requires TaskOk(p, task) && Pending(p, task) && task.call.Some? && task.call.value.ticket !in p.answers && task.call.value.slot == slot
    requires WorkerEnabled(p, slot, event) && (event.Leave? || event.Die?)
    ensures Resolved(p, WorkerStepped(p, slot, event), task.call.value, None)
  {
    hide TaskOk;
    var e :| e in p.slots[slot].mailbox && e.ticket == task.call.value.ticket;
    assert e.ticket in Tickets(p.slots[slot].mailbox);
  }

  lemma TakeResolves(p: Shared, task: Task, slot: nat, tapError: Option<string>)
    requires PoolOk(p) && TaskOk(p, task) && task.call.Some? && WorkerEnabled(p, slot, Take(tapError))
    requires p.slots[slot].mailbox[0].ticket == task.call.value.ticket && task.call.value.slot == slot
    ensures Resolved(p, WorkerStepped(p, slot, Take(tapError)), task.call.value,
                     Some(Effect(p, slot, task.call.value.ticket, task.call.value.command, tapError)))
  {
    hide PoolOk, Interfered, GuardOk, PcOk;
    assert p.slots[slot].mailbox[0] in p.slots[slot].mailbox;
    InterferedReflexive(p);
    InterferedReflexive(WorkerStepped(p, slot, Take(tapError)));
  }

  lemma TakeLeavesOthers(p: Shared, slot: nat, tapError: Option<string>, ticket: nat)
    requires WorkerEnabled(p, slot, Take(tapError)) && ticket !in p.answers && p.slots[slot].mailbox[0].ticket != ticket
    ensures ticket !in WorkerStepped(p, slot, Take(tapError)).answers
    ensures |WorkerStepped(p, slot, Take(tapError)).slots[slot].mailbox| < |p.slots[slot].mailbox|
  {
  }

  /** A request nobody served: there is no such slot, or its worker ended. */
  ghost predicate Unserved(p: Shared, slot: nat, reply: Reply) {
    if slot >= |p.slots| then reply == Err(SlotNotFound(slot))
    else reply == Err(ChannelClosed) && !p.slots[slot].task.Running?
  }

  lemma SameSize(p: Shared, q: Shared)
    requires Interfered(p, q)
    ensures |q.slots| == |p.slots| && p.nextTicket <= q.nextTicket
  {
  }

  lemma LearnFrom(o: Shared, p: Shared, q: Shared, asking: Task, effect: Option<Effect>)
    requires Interfered(o, p) && Interfered(p, q) && asking.call.Some? && Resolved(p, q, asking.call.value, effect)
    ensures Interfered(o, q) && Resolved(o, q, asking.call.value, effect)
  {
    hide IsEffect, Interfered;
    InterferedTransitive(o, p, q);
    ResolvedEarlier(o, p, q, asking.call.value, effect);
  }

  lemma ResolvedLater(o: Shared, p: Shared, q: Shared, call: Call, effect: Option<Effect>)
    requires Resolved(o, p, call, effect) && Interfered(p, q) && KeepsAnswer(p, q, Some(call.ticket))
    ensures Resolved(o, q, call, effect)
  {
    hide IsEffect;
    if effect.Some? && Within(o, effect.value, p) {
      InterferedTransitive(AfterEffect(effect.value), p, q);
    }
  }

  lemma LearnLater(o: Shared, p: Shared, q: Shared, asking: Task, effect: Option<Effect>)
    requires Interfered(o, p) && Interfered(p, q) && asking.call.Some? && KeepsAnswer(p, q, Some(asking.call.value.ticket))
    requires Resolved(o, p, asking.call.value, effect)
    ensures Interfered(o, q) && Resolved(o, q, asking.call.value, effect)
  {
    hide IsEffect, Interfered;
    InterferedTransitive(o, p, q);
    ResolvedLater(o, p, q, asking.call.value, effect);
  }

  // ---------- Sending ----------

  /** The task as it waits for the answer to `command`. */
  function Asking(task: Task, ticket: nat, slot: nat, command: Command): Task {
    task.(call := Some(Call(ticket, slot, command)))
  }

  lemma OwnPostKeepsPool(p: Shared, task: Task, slot: nat, command: Command)
    requires PoolOk(p) && TaskOk(p, task) && task.call.None? && MayPost(p, slot, command)
    requires RequestAt(task, |p.slots|) == Some((slot, command))
    ensures PoolOk(Posted(p, slot, command))
  {
    if command.ReserveVm? {
      ReserveIsFree(p, task);
    }
    PostKeepsSlots(p, slot, command);
    PostKeepsNames(p, slot, command);
  }

  lemma PostInterferes(p: Shared, slot: nat, command: Command)
    requires slot < |p.slots|
    ensures Interfered(p, Posted(p, slot, command))
  {
  }

  /** Posting its own request keeps the pool fine and leaves the task waiting for it. */
  lemma PostedIsFine(p: Shared, task: Task, slot: nat, command: Command)
    requires PoolOk(p) && TaskOk(p, task) && task.call.None? && slot < |p.slots|
    requires RequestAt(task, |p.slots|) == Some((slot, command))
    requires p.slots[slot].task.Running? && |p.slots[slot].mailbox| < CHANNEL_CAPACITY
    ensures PoolOk(Posted(p, slot, command)) && Interfered(p, Posted(p, slot, command))
    ensures TaskOk(Posted(p, slot, command), Asking(task, p.nextTicket, slot, command))
    ensures Pending(Posted(p, slot, command), Asking(task, p.nextTicket, slot, command))
    ensures p.nextTicket !in p.answers && p.nextTicket !in Posted(p, slot, command).answers
  {
    hide TaskOk, Interfered;
    SendMayPost(p, task, slot, command);
    OwnPostKeepsPool(p, task, slot, command);
    PostInterferes(p, slot, command);
    WaitingTaskIsOk(p, slot, command, task);
    assert Envelope(p.nextTicket, command) in Posted(p, slot, command).slots[slot].mailbox;
  }

  // ---------- What a reply tells ----------

  /** What a task learns from the reply of a request that took effect. */
  ghost predicate Learned(p: Shared, asking: Task, slot: nat, reply: Reply) {
    match reply
    case Ok(status) =>
      && slot < |p.slots| && asking.call.Some? && asking.call.value.slot == slot
      && TaskOk(p, asking) && StatusOk(p, asking, slot, p.slots[slot].id, status)
    case Err(error) =>
      && slot < |p.slots| && asking.call.Some? && asking.call.value.slot == slot
      && (error.InvalidTransition? || error.Backend?) && ErrorOk(p, asking, asking.call.value, error)
  }

  lemma ReplyIsLearned(o: Shared, p: Shared, asking: Task, effect: Option<Effect>, reply: Reply)
    requires PoolOk(p) && TaskOk(p, asking) && asking.call.Some? && Resolved(o, p, asking.call.value, effect)
    requires reply == (match p.answers[asking.call.value.ticket] case Lost => Err(ChannelClosed) case Answer(_, answer) => answer)
    ensures effect.Some? ==> Learned(p, asking, asking.call.value.slot, reply)
    ensures effect.None? ==> Unserved(p, asking.call.value.slot, reply)
  {
    hide IsEffect, Interfered, GuardOk, PcOk, SlotsOk, UniqueNames;
    assert AnswerOk(p, asking, asking.call.value, p.answers[asking.call.value.ticket]);
    assert FromWorker(p.answers[asking.call.value.ticket]);
  }

  // ---------- Scanning ----------

  /** The program points at which a task scans the slots. */
  predicate Scanning(task: Task, seen: seq<SlotStatus>) {
    task.call.None? && (task.pc == FindByName(seen) || task.pc == FindEmpty(seen))
  }

  function Scanned(task: Task, seen: seq<SlotStatus>): Task {
    task.(pc := if task.pc.FindByName? then FindByName(seen) else FindEmpty(seen))
  }

  /** A status request is never refused. */
  lemma StatusIsGiven(e: Effect, reply: Reply)
    requires IsEffect(e) && e.command == GetVmStatus && EffectReply(e) == reply
    ensures reply.Ok?
  {
  }

  lemma StatusScanned(p: Shared, task: Task, seen: seq<SlotStatus>, asking: Task, status: SlotStatus)
    requires PoolOk(p) && Scanning(task, []) && asking.(call := None) == Scanned(task, seen) && Learned(p, asking, |seen|, Ok(status))
    ensures TaskOk(p, Scanned(task, seen + [status]))
  {
    hide TaskOk;
    StatusReceived(p, asking, p.slots[|seen|].id, status);
  }

  lemma ScanWaits(scan: Scan, q: Shared)
    requires IsScan(scan) && Interfered(scan.until, q)
    ensures IsScan(scan.(until := q))
  {
    hide IsEffect, Interfered;
    SameSize(scan.until, q);
    InterferedTransitive(scan.from, scan.until, q);
    forall i | 0 <= i < |scan.seen| ensures EntryOk(scan.(until := q), i) {
      assert EntryOk(scan, i);
      InterferedReflexive(scan.from);
      WithinWider(scan.from, scan.from, scan.effects[i], scan.until, q);
    }
  }

  lemma ScanLasts(scan: Scan)
    requires IsScan(scan)
    ensures Interfered(scan.from, scan.until) && |scan.seen| <= |scan.until.slots|
  {
  }

  lemma ScanIsWhole(scan: Scan)
    requires IsScan(scan) && |scan.seen| == |scan.until.slots|
    ensures IsWholeScan(scan)
  {
  }

  lemma WholeScanIsFull(scan: Scan)
    requires IsWholeScan(scan)
    ensures |scan.seen| == |scan.until.slots| && Interfered(scan.from, scan.until)
  {
  }

  /** No slot carries this name. */
  ghost predicate Unknown(p: Shared, name: string) {
    forall i :: 0 <= i < |p.slots| ==> NameOf(p.slots[i]) != Some(name)
  }

  /** The slot reported with this name still carries the reported reservation, or no name; and no other slot has the name. */
  ghost predicate FoundAlone(p: Shared, name: string, status: SlotStatus) {
    && status.name == Some(name) && status.slot < |p.slots|
    && Trails(status, p.slots[status.slot].rt.status) && SoleName(p, status.slot, status)
  }

  /** What a whole lookup tells of the pool as it is when the lookup ends. */
  lemma LookupIsExact(p: Shared, task: Task, seen: seq<SlotStatus>, name: string)
    requires TaskOk(p, task.(pc := FindByName(seen))) && |seen| == |p.slots|
    ensures NamesDiffer(seen)
    ensures match FirstNamed(seen, name)
            case None => Unknown(p, name)
            case Some(i) => FoundAlone(p, name, seen[i])
  {
    hide GuardOk, CallOk;
    assert AllocationOk(p, task.(pc := FindByName(seen)));
    forall i | 0 <= i < |p.slots| && FirstNamed(seen, name).None? ensures NameOf(p.slots[i]) != Some(name) {
      assert Trails(seen[i], p.slots[i].rt.status);
    }
  }
}
