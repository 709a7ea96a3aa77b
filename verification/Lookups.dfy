/**
 A scan asks the slots one at a time and is no snapshot of the pool. This module shows that every
 status a task was told was the status of its slot at a moment of the run since the task took
 the lock, and what the allocation of a slot makes of them.
 */
module Lookups {
  import opened Slots
  import opened SlotSteps
  import opened Protocol
  import opened ProtocolInvariant
  import opened PoolMoves
  import opened Decisions
  import opened PoolTheorems
  import opened Workers
  import opened Reservations
  import opened Bookings

  /** Slot `i` had this status at a moment up to `until`, after ticket `since` was issued. */
  ghost predicate Was(states: seq<System>, until: nat, i: nat, status: SlotStatus, since: nat)
    requires until < |states|
  {
    exists n :: 0 <= n <= until && WasAt(states[n].pool, i, status, since)
  }

  predicate WasAt(p: Shared, i: nat, status: SlotStatus, since: nat) {
    i < |p.slots| && p.slots[i].rt.status == status && since < p.nextTicket
  }

  ghost predicate AllWere(states: seq<System>, until: nat, seen: seq<SlotStatus>, since: nat)
    requires until < |states|
  {
    forall j :: 0 <= j < |seen| ==> Was(states, until, j, seen[j], since)
  }

  /** The statuses a task works with at this point of its program. */
  ghost predicate PcWas(states: seq<System>, until: nat, pc: Pc, since: nat)
    requires until < |states|
  {
    match pc
    case FindByName(seen) => AllWere(states, until, seen, since)
    case FindEmpty(seen) => AllWere(states, until, seen, since)
    case Done(Created(_, _, _, status)) => Was(states, until, status.slot, status, since)
    case Done(Deleted(target, after)) =>
      Was(states, until, target.slot, target, since) && Was(states, until, after.slot, after, since)
    case Done(Proxied(target)) => Was(states, until, target.slot, target, since)
    case _ => TargetOf(pc).Some? ==> Was(states, until, TargetOf(pc).value.slot, TargetOf(pc).value, since)
  }

  ghost predicate CallWas(states: seq<System>, until: nat, answers: map<nat, Answer>, task: Task)
    requires until < |states|
  {
    task.call.Some? && task.call.value.ticket in answers ==>
      match answers[task.call.value.ticket]
      case Answer(_, Ok(status)) => Was(states, until, task.call.value.slot, status, task.since)
      case _ => true
  }

  /** Everything a task was told was true of its slot at some moment since it took the lock. */
  ghost predicate Witnessed(states: seq<System>, until: nat, task: Task)
    requires until < |states|
  {
    PcWas(states, until, task.pc, task.since) && CallWas(states, until, states[until].pool.answers, task)
  }

  lemma PcWasBefore(states: seq<System>, k: nat, until: nat, pc: Pc, since: nat)
    requires k <= until < |states| && PcWas(states, k, pc, since)
    ensures PcWas(states, until, pc, since)
  {
  }

  // ---------- Steps ----------

  /** A new answer reports the slot as the step leaves it. */
  lemma WorkerAnswersTrue(states: seq<System>, m: nat, i: nat, event: WorkerEvent, task: Task)
    requires m + 1 < |states| && SlotsOk(states[m].pool) && CallOk(states[m].pool, task)
    requires WorkerEnabled(states[m].pool, i, event) && states[m + 1].pool == WorkerStepped(states[m].pool, i, event)
    requires CallWas(states, m, states[m].pool.answers, task)
    ensures CallWas(states, m + 1, states[m + 1].pool.answers, task)
  {
    if task.call.Some? && task.call.value.ticket in states[m + 1].pool.answers {
      var call, w := task.call.value, states[m].pool.slots[i];
      if call.ticket in NewAnswers(w, event) && event.Take? {
        CallIsServed(states[m].pool, task, i, event);
        if ReplyTo(w.rt, w.mailbox[0].command, event.tapError).Ok? {
          assert WasAt(states[m + 1].pool, i, ReplyTo(w.rt, w.mailbox[0].command, event.tapError).value, task.since);
        }
      }
    }
  }

  /** Tasks that wait for an answer are not disturbed by those that only look after themselves. */
  lemma OthersKeepAnswers(s: System, a: Action, u: nat)
    requires Exclusive(s) && Enabled(s, a) && !a.WorkerStep? && ActingTask(a) != Some(u)
    requires u in s.tasks && CallOk(s.pool, s.tasks[u]) && s.tasks[u].call.Some?
    ensures Step(s, a).pool.answers == s.pool.answers
  {
    assert !GuardOf(s.tasks[u]).NoGuard?;
    NoPoppedStepBeside(s, a, u);
    hide Exclusive, CallOk;
  }

  lemma ReceivedWas(states: seq<System>, m: nat, task: Task)
    requires m < |states| && SlotsOk(states[m].pool) && TaskOk(states[m].pool, task) && Witnessed(states, m, task)
    requires task.call.Some? && task.call.value.ticket in states[m].pool.answers
    ensures PcWas(states, m, OnAnswer(task, states[m].pool.answers[task.call.value.ticket]), task.since)
  {
    hide Was;
    var answer := states[m].pool.answers[task.call.value.ticket];
    assert CallOk(states[m].pool, task) && AnswerOk(states[m].pool, task, task.call.value, answer);
  }

  lemma DecidedWas(states: seq<System>, m: nat, task: Task, o: Oracle)
    requires m < |states| && CanDecide(states[m].pool, task) && PcWas(states, m, task.pc, task.since)
    requires task.pc.FindByName? ==> NumberedFrom0(task.pc.seen)
    ensures PcWas(states, m, Plan(states[m].pool, task, o).0, task.since)
  {
    hide Was;
  }

  lemma EntryWas(states: seq<System>, m: nat, task: Task, since: nat)
    requires m < |states| && Entry(task).Some?
    ensures PcWas(states, m, Entry(task).value.1, since)
  {
  }

  /** The step of the task itself. */
  lemma ActorWitnesses(states: seq<System>, m: nat, a: Action, t: nat)
    requires m + 1 < |states| && SlotsOk(states[m].pool) && Enabled(states[m], a) && states[m + 1] == Step(states[m], a)
    requires ActingTask(a) == Some(t) && t in states[m + 1].tasks
    requires t in states[m].tasks ==> TaskOk(states[m].pool, states[m].tasks[t]) && Witnessed(states, m, states[m].tasks[t])
    ensures PcWas(states, m, states[m + 1].tasks[t].pc, states[m + 1].tasks[t].since)
  {
    var s := states[m];
    match a {
      case Arrive(_, _) =>
      case Acquire(_) => EntryWas(states, m, s.tasks[t], s.pool.nextTicket);
      case Send(_) => SentPc(s, t);
      case Receive(_) => ReceivedWas(states, m, s.tasks[t]);
      case Decide(_, o) =>
        assert s.tasks[t].pc.FindByName? ==> AllocationOk(s.pool, s.tasks[t]);
        DecidedWas(states, m, s.tasks[t], o);
      case Cancel(_) =>
      case PoppedStep(_, _) =>
    }
  }

  lemma SentPc(s: System, t: nat)
    requires Enabled(s, Send(t))
    ensures var pc, pc' := s.tasks[t].pc, Step(s, Send(t)).tasks[t].pc;
            && Step(s, Send(t)).tasks[t].since == s.tasks[t].since
            && (pc' == pc || pc' == Start || (pc'.Done? && (pc'.outcome.Refused? || pc'.outcome.BackendError?)))
  {
  }

  lemma ActorHasNoAnswer(s: System, a: Action, t: nat)
    requires Enabled(s, a) && ActingTask(a) == Some(t) && AnswersOk(s.pool) && t in Step(s, a).tasks
    requires t in s.tasks ==> CallOk(s.pool, s.tasks[t])
    ensures Step(s, a).tasks[t].call.None? || Step(s, a).tasks[t].call.value.ticket !in Step(s, a).pool.answers
  {
  }

  lemma StepWitnesses(states: seq<System>, m: nat, a: Action, t: nat)
    requires m + 1 < |states| && Inv(states[m]) && Enabled(states[m], a) && states[m + 1] == Step(states[m], a)
    requires t in states[m + 1].tasks && (t in states[m].tasks ==> Witnessed(states, m, states[m].tasks[t]))
    ensures Witnessed(states, m + 1, states[m + 1].tasks[t])
  {
    hide PcWas;
    var s := states[m];
    if ActingTask(a) == Some(t) {
      ActorWitnesses(states, m, a, t);
      ActorHasNoAnswer(s, a, t);
      PcWasBefore(states, m, m + 1, states[m + 1].tasks[t].pc, states[m + 1].tasks[t].since);
    } else {
      OnlyTheActorMoves(s, a, t);
      PcWasBefore(states, m, m + 1, s.tasks[t].pc, s.tasks[t].since);
      assert TaskOk(s.pool, s.tasks[t]);
      if a.WorkerStep? {
        WorkerAnswersTrue(states, m, a.slot, a.event, s.tasks[t]);
      } else if s.tasks[t].call.Some? {
        OthersKeepAnswers(s, a, t);
      }
    }
  }

  /**
   In every run, whatever a task was told about a slot, and whatever it acts on, was that slot's
   status at a moment since the task took the lock.
   */
  lemma {:induction false} StatusesAreReal(config: Config, states: seq<System>, actions: seq<Action>, m: nat, t: nat)
    requires IsRun(config, states, actions) && m < |states| && t in states[m].tasks
    ensures Witnessed(states, m, states[m].tasks[t])
    decreases m
  {
    hide Step, Witnessed;
    if m > 0 {
      RunsKeepInvariants(config, states, actions, m - 1);
      if t in states[m - 1].tasks {
        StatusesAreReal(config, states, actions, m - 1, t);
      }
      StepWitnesses(states, m - 1, actions[m - 1], t);
    }
  }

  // ---------- Allocation ----------

  /** Every slot was asked, and answered what it then was. */
  ghost predicate WholeScan(states: seq<System>, m: nat, seen: seq<SlotStatus>, since: nat)
    requires m < |states|
  {
    |seen| == |states[m].pool.slots| && AllWere(states, m, seen, since)
  }

  predicate NoneEmpty(seen: seq<SlotStatus>) {
    forall j :: 0 <= j < |seen| ==> !seen[j].state.Empty?
  }

  /**
   What a create makes of a whole scan: it reserves the first slot that answered that it is
   empty; with none, it is refused exactly when the pool has its maximal size, and otherwise
   grows the pool by one slot and scans again.
   */
  lemma AllocationTakesFirstEmpty(config: Config, states: seq<System>, actions: seq<Action>, m: nat, t: nat)
    requires IsRun(config, states, actions) && m < |actions| && actions[m].Decide? && actions[m].task == t
    requires states[m].tasks[t].pc.FindEmpty?
    ensures var seen, next := states[m].tasks[t].pc.seen, states[m + 1].tasks[t].pc;
            && WholeScan(states, m, seen, states[m].tasks[t].since)
            && match next
               case Reserve(i) => i < |seen| && seen[i].state.Empty? && NoneEmpty(seen[..i])
               case FindEmpty(again) =>
                 && NoneEmpty(seen) && again == [] && |seen| < config.max
                 && |states[m + 1].pool.slots| == |states[m].pool.slots| + 1
               case Done(outcome) => outcome == Refused(NoAvailableSlot) && NoneEmpty(seen) && |seen| >= config.max
               case _ => false
  {
    hide Was, Step;
    RunsKeepInvariants(config, states, actions, m);
    StatusesAreReal(config, states, actions, m, t);
    DecisionIs(states[m], t, actions[m].oracle);
    var p, task := states[m].pool, states[m].tasks[t];
    assert TaskOk(p, task);
    assert NumberedFrom0(task.pc.seen);
  }

  /** A create is refused its name exactly when some slot answered that it carries that name. */
  lemma RefusedIffNameSeen(config: Config, states: seq<System>, actions: seq<Action>, m: nat, t: nat)
    requires IsRun(config, states, actions) && m < |actions| && actions[m].Decide? && actions[m].task == t
    requires states[m].tasks[t].pc.FindByName? && states[m].tasks[t].job.Create?
    ensures var seen, name := states[m].tasks[t].pc.seen, states[m].tasks[t].job.name;
            && WholeScan(states, m, seen, states[m].tasks[t].since)
            && (states[m + 1].tasks[t].pc == Done(Refused(VmAlreadyRunning(name)))
                <==> exists j :: 0 <= j < |seen| && seen[j].name == Some(name))
  {
    hide Was, Step;
    RunsKeepInvariants(config, states, actions, m);
    StatusesAreReal(config, states, actions, m, t);
    DecisionIs(states[m], t, actions[m].oracle);
    assert TaskOk(states[m].pool, states[m].tasks[t]);
  }

  /** The only entry of the scan with this name, in this condition. */
  predicate OnlyEntry(seen: seq<SlotStatus>, name: string, status: SlotStatus, occupied: bool) {
    && status in seen && status.name == Some(name) && status.state.Occupied? == occupied
    && forall j :: 0 <= j < |seen| && seen[j].name == Some(name) ==> seen[j] == status
  }

  /**
   What a delete or a proxied request makes of a whole scan: without an entry of its name it is
   told that there is none; if the one entry of that name is not occupied, because its create is
   under way, gave up or failed, it is a conflict; otherwise it goes on with that entry.
   */
  lemma LookupDecidesByOnlyEntry(config: Config, states: seq<System>, actions: seq<Action>, m: nat, t: nat)
    requires IsRun(config, states, actions) && m < |actions| && actions[m].Decide? && actions[m].task == t
    requires states[m].tasks[t].pc.FindByName? && !states[m].tasks[t].job.Create?
    ensures states[m].tasks[t].job.Delete? || states[m].tasks[t].job.Proxy?
    ensures var task, next := states[m].tasks[t], states[m + 1].tasks[t].pc;
            var seen, name := task.pc.seen, task.job.name;
            && WholeScan(states, m, seen, task.since)
            && (next == Done(NotFound) <==> forall j :: 0 <= j < |seen| ==> seen[j].name != Some(name))
            && (next == Done(Conflict) <==> exists status :: OnlyEntry(seen, name, status, false))
            && (forall status :: next == PutShutdown(status) <==> task.job.Delete? && OnlyEntry(seen, name, status, true))
            && (forall status :: next == PutAction(status) <==> task.job.Proxy? && OnlyEntry(seen, name, status, true))
  {
    hide Was, Step;
    RunsKeepInvariants(config, states, actions, m);
    StatusesAreReal(config, states, actions, m, t);
    DecisionIs(states[m], t, actions[m].oracle);
    assert TaskOk(states[m].pool, states[m].tasks[t]);
    LookupPlan(states[m].pool, states[m].tasks[t], actions[m].oracle);
  }

  lemma LookupPlan(p: Shared, task: Task, o: Oracle)
    requires TaskOk(p, task) && CanDecide(p, task) && task.pc.FindByName? && !task.job.Create?
    ensures task.job.Delete? || task.job.Proxy?
    ensures var next, seen, name := Plan(p, task, o).0, task.pc.seen, task.job.name;
            && (next == Done(NotFound) <==> forall j :: 0 <= j < |seen| ==> seen[j].name != Some(name))
            && (next == Done(Conflict) <==> exists status :: OnlyEntry(seen, name, status, false))
            && (forall status :: next == PutShutdown(status) <==> task.job.Delete? && OnlyEntry(seen, name, status, true))
            && (forall status :: next == PutAction(status) <==> task.job.Proxy? && OnlyEntry(seen, name, status, true))
  {
    var seen, name := task.pc.seen, task.job.name;
    assert NamesDiffer(seen);
    hide TaskOk;
    var found := FirstNamed(seen, name);
    if found.Some? {
      assert seen[found.value] in seen;
      OnlyIfNamed(seen, name, found.value);
      assert OnlyEntry(seen, name, seen[found.value], seen[found.value].state.Occupied?);
    }
  }

  lemma OnlyIfNamed(seen: seq<SlotStatus>, name: string, i: nat)
    requires NamesDiffer(seen) && i < |seen| && seen[i].name == Some(name)
    ensures forall status, occupied :: OnlyEntry(seen, name, status, occupied) <==> status == seen[i] && status.state.Occupied? == occupied
  {
    forall j | 0 <= j < |seen| && seen[j].name == Some(name) ensures j == i {
      assert !(j < i) && !(i < j);
    }
  }

  lemma ScanSawReservation(p: Shared, task: Task, i: nat)
    requires TaskOk(p, task) && task.pc.FindByName? && |task.pc.seen| == |p.slots|
    requires i < |p.slots| && NameOf(p.slots[i]) == Some(task.job.name)
    ensures forall status, occupied :: OnlyEntry(task.pc.seen, task.job.name, status, occupied) <==>
              status == task.pc.seen[i] && status.state.Occupied? == occupied
    ensures OnlyEntry(task.pc.seen, task.job.name, task.pc.seen[i], task.pc.seen[i].state.Occupied?)
    ensures p.slots[i].rt.status.state.Booting? ==> !task.pc.seen[i].state.Occupied?
  {
    var seen := task.pc.seen;
    assert Trails(seen[i], p.slots[i].rt.status);
    assert NamesDiffer(seen);
    hide TaskOk;
    assert seen[i] in seen;
    OnlyIfNamed(seen, task.job.name, i);
  }

  /**
   The reservation a create leaves behind when it times out, fails or is cancelled, and nothing ended
   its VM since: a later delete or proxied request of its name finds it, and as long as it was not
   marked as booted the answer is a conflict.
   */
  lemma LeftoverIsAConflict(config: Config, states: seq<System>, actions: seq<Action>, n: nat, m: nat, t: nat, u: nat, i: nat)
    requires IsRun(config, states, actions) && n < m < |actions| && GrantedTo(states, actions, n, t, i)
    requires NoClears(states, actions, n + 1, m, i) && !states[m].pool.shutdown
    requires actions[m].Decide? && actions[m].task == u && states[m].tasks[u].pc.FindByName? && !states[m].tasks[u].job.Create?
    requires states[n].tasks[t].job.Create?
    requires (states[m].tasks[u].job.Delete? || states[m].tasks[u].job.Proxy?) && states[m].tasks[u].job.name == states[n].tasks[t].job.name
    ensures i < |states[m].pool.slots| && NameOf(states[m].pool.slots[i]) == Some(states[n].tasks[t].job.name)
    ensures states[m + 1].tasks[u].pc != Done(NotFound)
    ensures states[m].pool.slots[i].rt.status.state.Booting? ==> states[m + 1].tasks[u].pc == Done(Conflict)
  {
    hide Step, Inv, TaskOk, Was, NoClears, OnlyEntry;
    ReservationStaysUntilCleared(config, states, actions, n, m, t, i);
    LookupDecidesByOnlyEntry(config, states, actions, m, u);
    RunsKeepInvariants(config, states, actions, m);
    TaskIsOk(states[m], u);
    ScanSawReservation(states[m].pool, states[m].tasks[u], i);
    OnlyEntryIsNamed(states[m].tasks[u].pc.seen, states[n].tasks[t].job.name, i);
  }

  lemma TaskIsOk(s: System, t: nat)
    requires Inv(s) && t in s.tasks
    ensures TaskOk(s.pool, s.tasks[t])
  {
  }

  lemma OnlyEntryIsNamed(seen: seq<SlotStatus>, name: string, i: nat)
    requires i < |seen| && OnlyEntry(seen, name, seen[i], seen[i].state.Occupied?)
    ensures seen[i].name == Some(name)
  {
  }
}
