/**
 The programs of the tasks over whole runs: what a create, a delete or a proxied request went
 through before it got where it is, in order; what each reply, poll and tick leads to; and what
 nobody else does while a task holds a guard.
 */
module Programs {
  import opened Slots
  import opened Protocol
  import opened ProtocolInvariant
  import opened PoolMoves
  import opened Decisions
  import opened PoolTheorems
  import opened Reservations

  // ---------- Steps of one task ----------

  /** Task `t` decides at step `n`, at this point of its program and with this contribution of its surroundings. */
  predicate DecidesAt(states: seq<System>, actions: seq<Action>, n: nat, t: nat, pc: Pc, o: Oracle)
    requires n < |actions| && n < |states|
  {
    actions[n] == Decide(t, o) && t in states[n].tasks && states[n].tasks[t].pc == pc
  }

  /** The hypervisor accepted the request that task `t` sends at this point. */
  ghost predicate AcceptedAt(states: seq<System>, actions: seq<Action>, n: nat, t: nat, pc: Pc)
    requires n < |actions| && n < |states|
  {
    exists o: Oracle :: DecidesAt(states, actions, n, t, pc, o) && o.http.HttpStatus? && o.http.code < 400
  }

  /** The hypervisor refused it with an error status. */
  ghost predicate RefusedAt(states: seq<System>, actions: seq<Action>, n: nat, t: nat, pc: Pc)
    requires n < |actions| && n < |states|
  {
    exists o: Oracle :: DecidesAt(states, actions, n, t, pc, o) && o.http.HttpStatus? && o.http.code >= 400
  }

  /** The slot reported a process and its socket accepted a connection, at this time. */
  ghost predicate ReadyAt(states: seq<System>, actions: seq<Action>, n: nat, t: nat, booking: Booking, booted: Option<string>, now: string)
    requires n < |actions| && n < |states|
  {
    exists o: Oracle :: DecidesAt(states, actions, n, t, ReadySeen(booking, booted, true), o) && o.connected && o.now == now
  }

  // ---------- A create ----------

  /** Before step `k` the slot of the booking was ready, at the time that becomes the start of the VM. */
  ghost predicate WasReady(states: seq<System>, actions: seq<Action>, k: nat, t: nat, booking: Booking, startedAt: string)
    requires AllEnabled(states, actions) && k <= |actions|
  {
    exists n :: 0 <= n < k && ReadyAt(states, actions, n, t, booking, None, startedAt)
  }

  /** After that, the request to create or restore the VM was accepted. */
  ghost predicate WasCreated(states: seq<System>, actions: seq<Action>, k: nat, t: nat, booking: Booking, startedAt: string)
    requires AllEnabled(states, actions) && k <= |actions|
  {
    exists n :: 0 <= n < k && WasReady(states, actions, n, t, booking, startedAt)
      && AcceptedAt(states, actions, n, t, PutCreate(booking, startedAt))
  }

  /** After that, unless a snapshot was restored, the request to boot it was. */
  ghost predicate WasStarted(states: seq<System>, actions: seq<Action>, k: nat, t: nat, job: Job, booking: Booking, startedAt: string)
    requires AllEnabled(states, actions) && k <= |actions| && job.Create?
  {
    if job.restore then WasCreated(states, actions, k, t, booking, startedAt)
    else exists n :: 0 <= n < k && WasCreated(states, actions, n, t, booking, startedAt)
           && AcceptedAt(states, actions, n, t, PutBoot(booking, startedAt))
  }

  /** After that, the slot was ready again. */
  ghost predicate WasReadyAgain(states: seq<System>, actions: seq<Action>, k: nat, t: nat, job: Job, booking: Booking, startedAt: string)
    requires AllEnabled(states, actions) && k <= |actions| && job.Create?
  {
    exists n, now :: 0 <= n < k && WasStarted(states, actions, n, t, job, booking, startedAt)
      && ReadyAt(states, actions, n, t, booking, Some(startedAt), now)
  }

  // ---------- A delete, a proxied request, a cleanup ----------

  /** The status was the one a lookup went on with. */
  ghost predicate WasFound(states: seq<System>, actions: seq<Action>, k: nat, t: nat, name: string, target: SlotStatus)
    requires AllEnabled(states, actions) && k <= |actions|
  {
    exists n, o, seen :: 0 <= n < k && DecidesAt(states, actions, n, t, FindByName(seen), o)
      && target in seen && target.name == Some(name) && target.state == Occupied && |seen| == |states[n].pool.slots|
  }

  /** After that, the request to shut the VM down was accepted. */
  ghost predicate WasShutDown(states: seq<System>, actions: seq<Action>, k: nat, t: nat, name: string, target: SlotStatus)
    requires AllEnabled(states, actions) && k <= |actions|
  {
    exists n :: 0 <= n < k && WasFound(states, actions, n, t, name, target)
      && AcceptedAt(states, actions, n, t, PutShutdown(target))
  }

  /** After that, the request to delete it was. */
  ghost predicate WasDeleted(states: seq<System>, actions: seq<Action>, k: nat, t: nat, name: string, target: SlotStatus)
    requires AllEnabled(states, actions) && k <= |actions|
  {
    exists n :: 0 <= n < k && WasShutDown(states, actions, n, t, name, target)
      && AcceptedAt(states, actions, n, t, PutDelete(target))
  }

  /** The action that was proxied was accepted. */
  ghost predicate WasProxied(states: seq<System>, actions: seq<Action>, k: nat, t: nat, name: string, target: SlotStatus)
    requires AllEnabled(states, actions) && k <= |actions|
  {
    exists n :: 0 <= n < k && WasFound(states, actions, n, t, name, target)
      && AcceptedAt(states, actions, n, t, PutAction(target))
  }

  /** A request about this slot was refused with an error status. */
  ghost predicate WasRefused(states: seq<System>, actions: seq<Action>, k: nat, t: nat, slot: nat, booked: Option<Booking>)
    requires AllEnabled(states, actions) && k <= |actions|
  {
    exists n, pc :: 0 <= n < k && RefusedAt(states, actions, n, t, pc)
      && match booked
         case Some(booking) => (pc.PutCreate? || pc.PutBoot?) && pc.booking == booking && booking.slot == slot
         case None => (pc.PutShutdown? || pc.PutDelete?) && pc.target.slot == slot
  }

  // ---------- How a task got where it is ----------

  /** The point of a program that only a decision leads to, with what is remembered there. */
  datatype Stage =
    | ToCreate(booking: Booking, at: string)
    | ToBoot(booking: Booking, at: string)
    | ToBeReady(booking: Booking, at: string)
    | ToMark(booking: Booking, at: string)
    | ToShutdown(target: SlotStatus)
    | ToDelete(target: SlotStatus)
    | ToRelease(target: SlotStatus)
    | ToAct(target: SlotStatus)
    | HasActed(target: SlotStatus)
    | ToClean(slot: nat, booked: Option<Booking>)
    | NoStage

  function StageOf(pc: Pc): Stage {
    match pc
    case PutCreateWait(booking, at) => ToCreate(booking, at)
    case PutCreate(booking, at) => ToCreate(booking, at)
    case PutBoot(booking, at) => ToBoot(booking, at)
    case ReadyWait(booking, Some(at)) => ToBeReady(booking, at)
    case ReadyAsk(booking, Some(at)) => ToBeReady(booking, at)
    case ReadySeen(booking, Some(at), _) => ToBeReady(booking, at)
    case MarkWait(booking, at) => ToMark(booking, at)
    case Mark(booking, at) => ToMark(booking, at)
    case Done(Created(booking, at, _, _)) => ToMark(booking, at)
    case PutShutdown(target) => ToShutdown(target)
    case PutDelete(target) => ToDelete(target)
    case Release(target) => ToRelease(target)
    case Done(Deleted(target, _)) => ToRelease(target)
    case PutAction(target) => ToAct(target)
    case Done(Proxied(target)) => HasActed(target)
    case CleanupWait(slot, booked) => ToClean(slot, booked)
    case Cleanup(slot, booked) => ToClean(slot, booked)
    case _ => NoStage
  }

  /** What a task went through before step `k` to be at this stage. */
  ghost predicate CameThrough(states: seq<System>, actions: seq<Action>, k: nat, t: nat, job: Job, stage: Stage)
    requires AllEnabled(states, actions) && k <= |actions|
  {
    match stage
    case ToCreate(booking, at) => job.Create? && WasReady(states, actions, k, t, booking, at)
    case ToBoot(booking, at) => job.Create? && !job.restore && WasCreated(states, actions, k, t, booking, at)
    case ToBeReady(booking, at) => job.Create? && WasStarted(states, actions, k, t, job, booking, at)
    case ToMark(booking, at) => job.Create? && WasReadyAgain(states, actions, k, t, job, booking, at)
    case ToShutdown(target) => job.Delete? && WasFound(states, actions, k, t, job.name, target)
    case ToDelete(target) => job.Delete? && WasShutDown(states, actions, k, t, job.name, target)
    case ToRelease(target) => job.Delete? && WasDeleted(states, actions, k, t, job.name, target)
    case ToAct(target) => job.Proxy? && WasFound(states, actions, k, t, job.name, target)
    case HasActed(target) => job.Proxy? && WasProxied(states, actions, k, t, job.name, target)
    case ToClean(slot, booked) => WasRefused(states, actions, k, t, slot, booked)
    case NoStage => true
  }

  lemma CameThroughStill(states: seq<System>, actions: seq<Action>, k: nat, t: nat, job: Job, stage: Stage)
    requires AllEnabled(states, actions) && k < |actions| && CameThrough(states, actions, k, t, job, stage)
    ensures CameThrough(states, actions, k + 1, t, job, stage)
  {
    hide Enabled, DecidesAt, AcceptedAt, RefusedAt, ReadyAt;
  }

  predicate SameStage(before: Option<Task>, after: Task) {
    StageOf(after.pc) == NoStage || (before.Some? && before.value.job == after.job && StageOf(before.value.pc) == StageOf(after.pc))
  }

  lemma SendStays(s: System, t: nat)
    requires Enabled(s, Send(t))
    ensures SameStage(Some(s.tasks[t]), Step(s, Send(t)).tasks[t])
  {
  }

  lemma ReceiveStays(s: System, t: nat)
    requires Enabled(s, Receive(t)) && CallOk(s.pool, s.tasks[t])
    ensures SameStage(Some(s.tasks[t]), Step(s, Receive(t)).tasks[t])
  {
    hide AnswerOk;
    ReceiveIs(s, t);
  }

  /** Entering, sending and receiving lead to no new stage. */
  lemma QuietStepStays(s: System, a: Action, t: nat)
    requires Enabled(s, a) && ActingTask(a) == Some(t) && !a.Decide? && t in Step(s, a).tasks
    requires t in s.tasks ==> CallOk(s.pool, s.tasks[t])
    ensures SameStage(if t in s.tasks then Some(s.tasks[t]) else None, Step(s, a).tasks[t])
  {
    if a.Send? {
      SendStays(s, t);
    } else if a.Receive? {
      ReceiveStays(s, t);
    } else {
      hide CallOk, RequestAt, OnAnswer;
    }
  }

  // ---------- Decisions ----------

  /** What waiting for the slot leads to. */
  lemma PollDecides(p: Shared, task: Task, o: Oracle)
    requires CanDecide(p, task) && task.pc.ReadySeen?
    ensures StageOf(Plan(p, task, o).0) ==
              if task.pc.hasPid && o.connected then
                (if task.pc.booted.None? then ToCreate(task.pc.booking, o.now) else ToMark(task.pc.booking, task.pc.booted.value))
              else if o.expired then NoStage
              else StageOf(task.pc)
    ensures !(task.pc.hasPid && o.connected) && o.expired ==> Plan(p, task, o).0 == Done(NotReady)
  {
  }

  /**
   What a task does with the reply of the hypervisor: a failed transport ends it with that message;
   an error status sends a create or a delete to its cleanup and ends a proxied request; anything
   below 400 leads to the next stage.
   */
  lemma ReplyDecides(p: Shared, task: Task, o: Oracle)
    requires CanDecide(p, task)
    requires task.pc.PutCreate? || task.pc.PutBoot? || task.pc.PutShutdown? || task.pc.PutDelete? || task.pc.PutAction?
    ensures o.http.TransportError? ==> Plan(p, task, o).0 == Done(Refused(Backend(o.http.message)))
    ensures o.http.HttpStatus? && o.http.code >= 400 ==>
              if task.pc.PutAction? then Plan(p, task, o).0 == Done(BackendError)
              else if task.pc.PutCreate? || task.pc.PutBoot? then
                Plan(p, task, o).0 == CleanupWait(task.pc.booking.slot, Some(task.pc.booking))
              else Plan(p, task, o).0 == CleanupWait(task.pc.target.slot, None)
    ensures o.http.TransportError? || (o.http.code >= 400 && task.pc.PutAction?) ==> StageOf(Plan(p, task, o).0) == NoStage
    ensures o.http.HttpStatus? && o.http.code < 400 ==>
              StageOf(Plan(p, task, o).0) ==
                match task.pc
                case PutCreate(booking, at) => if task.job.restore then ToBeReady(booking, at) else ToBoot(booking, at)
                case PutBoot(booking, at) => ToBeReady(booking, at)
                case PutShutdown(target) => ToDelete(target)
                case PutDelete(target) => ToRelease(target)
                case PutAction(target) => HasActed(target)
                case _ => NoStage
  {
  }

  lemma LookupDecides(p: Shared, task: Task, o: Oracle)
    requires TaskOk(p, task) && CanDecide(p, task) && task.pc.FindByName?
    ensures |task.pc.seen| == |p.slots|
    ensures match StageOf(Plan(p, task, o).0)
            case ToShutdown(target) => task.job.Delete? && target in task.pc.seen && target.name == Some(task.job.name) && target.state == Occupied
            case ToAct(target) => task.job.Proxy? && target in task.pc.seen && target.name == Some(task.job.name) && target.state == Occupied
            case stage => stage == NoStage
  {
    hide CallOk, GuardOk, SoleName, Trails, Flushed;
    assert AllocationOk(p, task);
    var found := FirstNamed(task.pc.seen, task.job.name);
    assert found.Some? ==> task.pc.seen[found.value] in task.pc.seen;
  }

  lemma OthersLeadNowhere(p: Shared, task: Task, o: Oracle)
    requires CanDecide(p, task)
    requires task.pc.FindEmpty? || task.pc.CheckPool? || task.pc.PopTail? || task.pc.JoinTail? || task.pc.Broadcast? || task.pc.DrainPool? || task.pc.JoinDrained?
    ensures StageOf(Plan(p, task, o).0) == NoStage
  {
  }

  /** Task `t` decides at step `k`, and came to its stage as it should. */
  ghost predicate Decides(states: seq<System>, actions: seq<Action>, k: nat, t: nat, o: Oracle) {
    && AllEnabled(states, actions) && k < |actions|
    && actions[k] == Decide(t, o) && t in states[k].tasks && CanDecide(states[k].pool, states[k].tasks[t])
    && CameThrough(states, actions, k, t, states[k].tasks[t].job, StageOf(states[k].tasks[t].pc))
  }

  /** The stage the decision of task `t` at step `k` leads to was come to as it should. */
  ghost predicate LeadsOn(states: seq<System>, actions: seq<Action>, k: nat, t: nat, o: Oracle)
    requires Decides(states, actions, k, t, o)
  {
    CameThrough(states, actions, k + 1, t, states[k].tasks[t].job, StageOf(Plan(states[k].pool, states[k].tasks[t], o).0))
  }

  lemma ReadyLeadsOn(states: seq<System>, actions: seq<Action>, k: nat, t: nat, o: Oracle)
    requires Decides(states, actions, k, t, o) && states[k].tasks[t].pc.ReadySeen? && states[k].tasks[t].job.Create?
    ensures LeadsOn(states, actions, k, t, o)
  {
    hide Enabled, Plan, WasCreated, WasStarted;
    var task := states[k].tasks[t];
    PollDecides(states[k].pool, task, o);
    if task.pc.hasPid && o.connected {
      assert DecidesAt(states, actions, k, t, ReadySeen(task.pc.booking, task.pc.booted, true), o);
      assert ReadyAt(states, actions, k, t, task.pc.booking, task.pc.booted, o.now);
    } else if !o.expired {
      CameThroughStill(states, actions, k, t, task.job, StageOf(task.pc));
    }
  }

  /** What the reply says about the request, in the words of the history. */
  lemma ReplyIsKnown(states: seq<System>, actions: seq<Action>, k: nat, t: nat, o: Oracle)
    requires Decides(states, actions, k, t, o) && o.http.HttpStatus?
    ensures o.http.code < 400 ==> AcceptedAt(states, actions, k, t, states[k].tasks[t].pc)
    ensures o.http.code >= 400 ==> RefusedAt(states, actions, k, t, states[k].tasks[t].pc)
  {
    hide Enabled, Plan, CameThrough;
    assert DecidesAt(states, actions, k, t, states[k].tasks[t].pc, o);
  }

  lemma RefusalIsRemembered(states: seq<System>, actions: seq<Action>, k: nat, t: nat, job: Job, pc: Pc, slot: nat, booked: Option<Booking>)
    requires AllEnabled(states, actions) && k < |actions| && RefusedAt(states, actions, k, t, pc)
    requires match booked
             case Some(booking) => (pc.PutCreate? || pc.PutBoot?) && pc.booking == booking && booking.slot == slot
             case None => (pc.PutShutdown? || pc.PutDelete?) && pc.target.slot == slot
    ensures CameThrough(states, actions, k + 1, t, job, StageOf(CleanupWait(slot, booked)))
  {
    hide Enabled, RefusedAt;
  }

  lemma RefusalLeadsOn(states: seq<System>, actions: seq<Action>, k: nat, t: nat, o: Oracle)
    requires Decides(states, actions, k, t, o) && o.http.HttpStatus? && o.http.code >= 400
    requires var pc := states[k].tasks[t].pc; pc.PutCreate? || pc.PutBoot? || pc.PutShutdown? || pc.PutDelete?
    ensures LeadsOn(states, actions, k, t, o)
  {
    var pc := states[k].tasks[t].pc;
    ReplyIsKnown(states, actions, k, t, o);
    ReplyDecides(states[k].pool, states[k].tasks[t], o);
    hide Enabled, Plan, RefusedAt, CameThrough, StageOf;
    if pc.PutCreate? || pc.PutBoot? {
      RefusalIsRemembered(states, actions, k, t, states[k].tasks[t].job, pc, pc.booking.slot, Some(pc.booking));
    } else {
      RefusalIsRemembered(states, actions, k, t, states[k].tasks[t].job, pc, pc.target.slot, None);
    }
  }

  lemma AcceptanceLeadsOn(states: seq<System>, actions: seq<Action>, k: nat, t: nat, o: Oracle)
    requires Decides(states, actions, k, t, o) && o.http.HttpStatus? && o.http.code < 400
    requires var task := states[k].tasks[t];
             || ((task.pc.PutCreate? || task.pc.PutBoot?) && task.job.Create?)
             || task.pc.PutShutdown? || task.pc.PutDelete? || task.pc.PutAction?
    ensures LeadsOn(states, actions, k, t, o)
  {
    ReplyIsKnown(states, actions, k, t, o);
    ReplyDecides(states[k].pool, states[k].tasks[t], o);
    hide Enabled, Plan, AcceptedAt, WasReady, WasFound;
  }

  lemma RequestLeadsOn(states: seq<System>, actions: seq<Action>, k: nat, t: nat, o: Oracle)
    requires Decides(states, actions, k, t, o)
    requires var task := states[k].tasks[t];
             || ((task.pc.PutCreate? || task.pc.PutBoot?) && task.job.Create?)
             || task.pc.PutShutdown? || task.pc.PutDelete? || task.pc.PutAction?
    ensures LeadsOn(states, actions, k, t, o)
  {
    hide Plan, Enabled, CameThrough, StageOf;
    if o.http.HttpStatus? && o.http.code < 400 {
      AcceptanceLeadsOn(states, actions, k, t, o);
    } else if o.http.HttpStatus? && !states[k].tasks[t].pc.PutAction? {
      RefusalLeadsOn(states, actions, k, t, o);
    } else {
      ReplyDecides(states[k].pool, states[k].tasks[t], o);
      NoStageIsFree(states, actions, k + 1, t, states[k].tasks[t].job);
    }
  }

  lemma FoundLeadsOn(states: seq<System>, actions: seq<Action>, k: nat, t: nat, o: Oracle)
    requires Decides(states, actions, k, t, o) && states[k].tasks[t].pc.FindByName? && TaskOk(states[k].pool, states[k].tasks[t])
    ensures LeadsOn(states, actions, k, t, o)
  {
    var task := states[k].tasks[t];
    LookupDecides(states[k].pool, task, o);
    hide Enabled, Plan, TaskOk;
    assert DecidesAt(states, actions, k, t, FindByName(task.pc.seen), o);
    hide DecidesAt;
  }

  lemma DecisionLeadsOn(states: seq<System>, actions: seq<Action>, k: nat, t: nat, o: Oracle)
    requires Decides(states, actions, k, t, o) && TaskOk(states[k].pool, states[k].tasks[t])
    ensures LeadsOn(states, actions, k, t, o)
  {
    var p, task := states[k].pool, states[k].tasks[t];
    CreatesHaveBookings(p, task);
    hide TaskOk, Plan, Enabled, CameThrough, StageOf;
    if task.pc.FindByName? {
      FoundLeadsOn(states, actions, k, t, o);
    } else if task.pc.ReadySeen? {
      ReadyLeadsOn(states, actions, k, t, o);
    } else if task.pc.PutCreate? || task.pc.PutBoot? || task.pc.PutShutdown? || task.pc.PutDelete? || task.pc.PutAction? {
      RequestLeadsOn(states, actions, k, t, o);
    } else {
      OthersLeadNowhere(p, task, o);
      NoStageIsFree(states, actions, k + 1, t, task.job);
    }
  }

  lemma CreatesHaveBookings(p: Shared, task: Task)
    requires TaskOk(p, task)
    ensures task.pc.ReadySeen? || task.pc.PutCreate? || task.pc.PutBoot? ==> task.job.Create?
  {
    hide CallOk, GuardOk, AllocationOk, PoolWorkOk, TargetOk;
  }

  // ---------- Every task ----------

  lemma FitsFrom(p: Shared, task: Task)
    requires TaskOk(p, task)
    ensures CallOk(p, task)
  {
  }

  lemma StepCameThrough(states: seq<System>, actions: seq<Action>, k: nat, t: nat)
    requires AllEnabled(states, actions) && k < |actions| && states[k + 1] == Step(states[k], actions[k])
    requires TasksOk(states[k]) && t in states[k + 1].tasks
    requires t in states[k].tasks ==> CameThrough(states, actions, k, t, states[k].tasks[t].job, StageOf(states[k].tasks[t].pc))
    ensures CameThrough(states, actions, k + 1, t, states[k + 1].tasks[t].job, StageOf(states[k + 1].tasks[t].pc))
  {
    hide Step, CameThrough, TaskOk, CallOk, StageOf;
    var s, a := states[k], actions[k];
    if t in s.tasks {
      FitsFrom(s.pool, s.tasks[t]);
      CameThroughStill(states, actions, k, t, s.tasks[t].job, StageOf(s.tasks[t].pc));
    }
    if ActingTask(a) != Some(t) {
      OnlyTheActorMoves(s, a, t);
    } else if a.Decide? {
      DecisionIs(s, t, a.oracle);
      DecisionLeadsOn(states, actions, k, t, a.oracle);
    } else {
      QuietStepStays(s, a, t);
      NoStageIsFree(states, actions, k + 1, t, states[k + 1].tasks[t].job);
    }
  }

  lemma NoStageIsFree(states: seq<System>, actions: seq<Action>, k: nat, t: nat, job: Job)
    requires AllEnabled(states, actions) && k <= |actions|
    ensures CameThrough(states, actions, k, t, job, NoStage)
  {
  }

  /**
   In every run, a task is where it is because it went through its program in order. A create that
   succeeded, or is about to mark, saw its slot ready, had its VM created or restored, booted unless
   it was restored, and saw its slot ready again, in this order and for the same booking; a delete
   that succeeded, or is about to release, found its target running in a whole scan, and had it shut
   down and deleted; a proxied request that succeeded found its target and was accepted; whoever
   cleans up was refused with an error status.
   */
  lemma {:induction false} TasksCameThrough(config: Config, states: seq<System>, actions: seq<Action>, k: nat, t: nat)
    requires IsRun(config, states, actions) && k < |states| && t in states[k].tasks
    ensures CameThrough(states, actions, k, t, states[k].tasks[t].job, StageOf(states[k].tasks[t].pc))
    decreases k
  {
    hide Step, CameThrough, StageOf;
    if k > 0 {
      RunsKeepInvariants(config, states, actions, k - 1);
      if t in states[k - 1].tasks {
        TasksCameThrough(config, states, actions, k - 1, t);
      }
      StepCameThrough(states, actions, k - 1, t);
    }
  }

  // ---------- Commands ----------

  /** A task waits to send exactly as long as the channel of a running worker holds sixteen commands. */
  lemma SendsWaitIffFull(s: System, t: nat)
    requires t in s.tasks && s.tasks[t].call.None? && RequestAt(s.tasks[t], |s.pool.slots|).Some?
    ensures var i := RequestAt(s.tasks[t], |s.pool.slots|).value.0;
            !Enabled(s, Send(t)) <==> i < |s.pool.slots| && s.pool.slots[i].task == Running && |s.pool.slots[i].mailbox| >= 16
  {
  }

  /**
   What a task does with the answer of a worker: an error, or a worker that is gone, ends it with
   that error, but a cleanup always with the backend's, and the autoscaler waits for the next tick; a
   status moves it to where its program goes on.
   */
  lemma AnswersDecide(config: Config, states: seq<System>, actions: seq<Action>, m: nat, t: nat)
    requires IsRun(config, states, actions) && m < |actions| && actions[m] == Receive(t)
    ensures var task, next := states[m].tasks[t], states[m + 1].tasks[t].pc;
            match states[m].pool.answers[task.call.value.ticket]
            case Answer(worker, Ok(status)) =>
              (match task.pc
               case FindByName(seen) => next == FindByName(seen + [status])
               case FindEmpty(seen) => next == FindEmpty(seen + [status])
               case Reserve(_) => next == ReadyWait(Booking(status.slot, worker, status.generation), None)
               case ReadyAsk(booking, booted) => next == ReadySeen(booking, booted, status.pid != None)
               case Mark(booking, at) => next == Done(Created(booking, at, worker, status))
               case Cleanup(_, _) => next == Done(BackendError)
               case Release(target) => next == Done(Deleted(target, status))
               case _ => task.pc.AskTail? && task.job.Autoscale?)
            case Answer(_, Err(error)) => next == Failure(task, error)
            case Lost => next == Failure(task, ChannelClosed)
  {
    hide Step, Inv;
    RunsKeepInvariants(config, states, actions, m);
    ReceiveIs(states[m], t);
    WaitsHere(states[m], t);
  }

  function Failure(task: Task, error: PoolError): Pc {
    if task.job == Autoscale then Start
    else if task.pc.Cleanup? then Done(BackendError)
    else Done(Refused(error))
  }

  lemma WaitsHere(s: System, t: nat)
    requires Inv(s) && t in s.tasks && s.tasks[t].call.Some?
    ensures var pc := s.tasks[t].pc;
            pc.FindByName? || pc.FindEmpty? || pc.Reserve? || pc.ReadyAsk? || pc.Mark? || pc.Cleanup? || pc.Release?
            || (pc.AskTail? && s.tasks[t].job.Autoscale?)
  {
    assert TaskOk(s.pool, s.tasks[t]);
    CallsFromHere(s.pool, s.tasks[t]);
    hide CallOk, GuardOk, BookingOk, TargetOk, AllocationOk;
  }

  // ---------- The autoscaler ----------

  /**
   What the autoscaler does at a tick: it asks the last slot exactly when the pool is above its
   minimal size and the last scale-down, if there was one, is at least the cooldown ago; told that
   the slot is empty, it takes it out, and otherwise it leaves it; and when the worker it awaits has
   ended it notes the time.
   */
  lemma TicksDecide(config: Config, states: seq<System>, actions: seq<Action>, m: nat, t: nat)
    requires IsRun(config, states, actions) && m < |actions| && t in states[m].tasks && ActingTask(actions[m]) == Some(t)
    requires states[m].tasks[t].job.Autoscale?
    ensures var p, pc, next := states[m].pool, states[m].tasks[t].pc, states[m + 1].tasks[t].pc;
            && (pc.CheckPool? ==>
                  next == if |p.slots| > config.min && (p.lastScaleDown.Some? ==> p.lastScaleDown.value + config.cooldown <= p.clock)
                          then AskTail(|p.slots| - 1) else Start)
            && (pc.AskTail? && actions[m].Receive? ==>
                  match p.answers[states[m].tasks[t].call.value.ticket]
                  case Answer(_, Ok(status)) => next == if status.state == Empty then PopTail(pc.slot) else Start
                  case _ => next == Start)
            && (pc.JoinTail? && actions[m].Decide? ==>
                  next == Start && states[m + 1].pool.lastScaleDown == Some(p.clock) && states[m + 1].pool.scaleDowns == p.scaleDowns + [p.clock])
  {
    hide Inv;
    RunsKeepInvariants(config, states, actions, m);
    FitsNow(states[m], t);
    TickDecides(states[m], actions[m], t);
  }

  lemma FitsNow(s: System, t: nat)
    requires Inv(s) && t in s.tasks
    ensures CallOk(s.pool, s.tasks[t])
  {
    assert TaskOk(s.pool, s.tasks[t]);
  }

  lemma TickDecides(s: System, a: Action, t: nat)
    requires Enabled(s, a) && t in s.tasks && ActingTask(a) == Some(t) && CallOk(s.pool, s.tasks[t]) && s.tasks[t].job.Autoscale?
    ensures var p, pc, next := s.pool, s.tasks[t].pc, Step(s, a).tasks[t].pc;
            && (pc.CheckPool? ==>
                  next == if |p.slots| > p.config.min && (p.lastScaleDown.Some? ==> p.lastScaleDown.value + p.config.cooldown <= p.clock)
                          then AskTail(|p.slots| - 1) else Start)
            && (pc.AskTail? && a.Receive? ==>
                  match p.answers[s.tasks[t].call.value.ticket]
                  case Answer(_, Ok(status)) => next == if status.state == Empty then PopTail(pc.slot) else Start
                  case _ => next == Start)
            && (pc.JoinTail? && a.Decide? ==>
                  next == Start && Step(s, a).pool.lastScaleDown == Some(p.clock) && Step(s, a).pool.scaleDowns == p.scaleDowns + [p.clock])
  {
    hide AnswerOk;
  }

  // ---------- The lock ----------

  /** The task is allocating a slot, shrinking the pool or shutting it down. */
  predicate ChangesThePool(task: Task) {
    || (task.job.Create? && (task.pc.FindByName? || task.pc.FindEmpty? || task.pc.Reserve?))
    || task.pc.CheckPool? || task.pc.AskTail? || task.pc.PopTail? || task.pc.JoinTail?
    || task.pc.Broadcast? || task.pc.DrainPool? || task.pc.JoinDrained?
  }

  /** The task is looking slots up, or sending to one, or to its hypervisor. */
  predicate UsesThePool(task: Task) {
    || task.pc.FindByName? || task.pc.ReadyAsk? || task.pc.Mark? || task.pc.Cleanup? || task.pc.Release?
    || task.pc.PutCreate? || task.pc.PutBoot? || task.pc.PutShutdown? || task.pc.PutDelete? || task.pc.PutAction?
  }

  /**
   While a task allocates, shrinks or shuts down, no other does, and no other looks slots up, sends to
   one, or sends to a hypervisor.
   */
  lemma ChangersAreAlone(config: Config, states: seq<System>, actions: seq<Action>, k: nat, t: nat, u: nat)
    requires IsRun(config, states, actions) && k < |states| && t in states[k].tasks && u in states[k].tasks && t != u
    requires ChangesThePool(states[k].tasks[t])
    ensures !ChangesThePool(states[k].tasks[u]) && !UsesThePool(states[k].tasks[u])
  {
    hide Step, PoolOk, TasksOk;
    RunsKeepInvariants(config, states, actions, k);
    GuardsAre(states[k].tasks[t]);
    GuardsAre(states[k].tasks[u]);
    hide GuardOf, ChangesThePool, UsesThePool;
  }

  lemma GuardsAre(task: Task)
    ensures ChangesThePool(task) ==> GuardOf(task) == WriteGuard
    ensures UsesThePool(task) ==> GuardOf(task) != NoGuard
  {
  }
}
