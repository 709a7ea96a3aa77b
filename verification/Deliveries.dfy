/**
 Commands from the step that sends them to the step at which a worker takes them, whatever became
 of the sender in between: a request that is cancelled while it waits drops its guard, but the
 command it sent stays queued and is executed.
 */
module Deliveries {
  import opened Slots
  import opened SlotSteps
  import opened Protocol
  import opened ProtocolInvariant
  import opened WorkerSteps
  import opened PoolTheorems
  import opened Workers
  import opened Reservations

  /** Step `n` sends a command of task `t` to slot `i`. */
  predicate SentAt(states: seq<System>, actions: seq<Action>, n: nat, t: nat, i: nat)
    requires n < |actions| && n < |states| && Enabled(states[n], actions[n])
  {
    actions[n] == Send(t) && PostOf(states[n], actions[n]).Some? && PostOf(states[n], actions[n]).value.0 == i
  }

  /** Step `m` is worker `w` taking the command with this ticket. */
  predicate TakenAt(states: seq<System>, actions: seq<Action>, m: nat, w: Worker, ticket: nat)
    requires m < |actions| && m < |states| && Enabled(states[m], actions[m])
  {
    Mover(states[m], actions[m]) == Some(w) && actions[m].event.Take? && w.mailbox[0].ticket == ticket
  }

  /** What the worker answers at such a step. */
  function ReplyAt(actions: seq<Action>, m: nat, w: Worker): Reply
    requires m < |actions| && (actions[m].WorkerStep? || actions[m].PoppedStep?) && actions[m].event.Take? && |w.mailbox| > 0
  {
    ReplyTo(w.rt, w.mailbox[0].command, actions[m].event.tapError)
  }

  // ---------- Where a command is while it is queued ----------

  /** Whoever has this ticket queued is worker `id` of slot `i`, and has this command under it. */
  ghost predicate OnlyThere(s: System, i: nat, id: nat, e: Envelope) {
    && e.ticket < s.pool.nextTicket
    && forall w, f :: InSystem(s, w) && f in w.mailbox && f.ticket == e.ticket ==> f == e && w.id == id && w.rt.status.slot == i
  }

  lemma SentIsOnlyThere(s: System, a: Action)
    requires Inv(s) && Enabled(s, a) && PostOf(s, a).Some?
    ensures var (i, command) := PostOf(s, a).value;
            OnlyThere(Step(s, a), i, s.pool.slots[i].id, Envelope(s.pool.nextTicket, command))
  {
    hide Inv, Step, InSystem;
    var (i, command) := PostOf(s, a).value;
    var s' := Step(s, a);
    StepAnswers(s, a);
    PositionsAreSlots(s);
    forall w', f | InSystem(s', w') && f in w'.mailbox && f.ticket == s.pool.nextTicket
      ensures f == Envelope(s.pool.nextTicket, command) && w'.id == s.pool.slots[i].id && w'.rt.status.slot == i
    {
      var w := EnvelopeOrigin(s, a, w', f);
    }
  }

  lemma StaysOnlyThere(s: System, a: Action, i: nat, id: nat, e: Envelope)
    requires Inv(s) && Enabled(s, a) && OnlyThere(s, i, id, e)
    ensures OnlyThere(Step(s, a), i, id, e)
  {
    hide Inv, Step, InSystem;
    StepAnswers(s, a);
    forall w', f | InSystem(Step(s, a), w') && f in w'.mailbox && f.ticket == e.ticket
      ensures f == e && w'.id == id && w'.rt.status.slot == i
    {
      var w := EnvelopeOrigin(s, a, w', f);
    }
  }

  lemma {:induction false} SentStaysThere(config: Config, states: seq<System>, actions: seq<Action>, n: nat, m: nat, t: nat, i: nat)
    requires IsRun(config, states, actions) && n < m < |states| && SentAt(states, actions, n, t, i)
    ensures OnlyThere(states[m], i, states[n].pool.slots[i].id, Envelope(states[n].pool.nextTicket, PostOf(states[n], actions[n]).value.1))
    decreases m
  {
    hide Step, OnlyThere;
    RunsKeepInvariants(config, states, actions, m - 1);
    if m == n + 1 {
      SentIsOnlyThere(states[n], actions[n]);
    } else {
      SentStaysThere(config, states, actions, n, m - 1, t, i);
      StaysOnlyThere(states[m - 1], actions[m - 1], i, states[n].pool.slots[i].id,
                     Envelope(states[n].pool.nextTicket, PostOf(states[n], actions[n]).value.1));
    }
  }

  /**
   A command sent to a slot is taken, if ever, by the worker it was sent to, as the command it
   was; and the answer lies under its ticket from then on.
   */
  lemma CommandsArrive(config: Config, states: seq<System>, actions: seq<Action>, n: nat, m: nat, t: nat, i: nat, w: Worker)
    requires IsRun(config, states, actions) && n < m < |actions|
    requires SentAt(states, actions, n, t, i) && TakenAt(states, actions, m, w, states[n].pool.nextTicket)
    ensures Serves(states[m], i, w) && Serves(states[n], i, states[n].pool.slots[i])
    ensures w.id == states[n].pool.slots[i].id && w.mailbox[0].command == PostOf(states[n], actions[n]).value.1
    ensures Descends(states, actions, n, m, i, states[n].pool.slots[i], w)
    ensures var answers := states[m + 1].pool.answers;
            states[n].pool.nextTicket in answers && answers[states[n].pool.nextTicket] == Answer(w.id, ReplyAt(actions, m, w))
  {
    hide Step, Inv, InSystem, Descends;
    RunsKeepInvariants(config, states, actions, m);
    RunsKeepInvariants(config, states, actions, n);
    SentStaysThere(config, states, actions, n, m, t, i);
    MoverIsOk(states[m], actions[m]);
    assert w.mailbox[0] in w.mailbox;
    InPoolIsInSystem(states[n], i);
    SameWorkerDescends(config, states, actions, n, m, i, states[n].pool.slots[i], w);
    StepAnswers(states[m], actions[m]);
  }

  // ---------- The release of a delete ----------

  /** Where this ticket is queued, the slot trails the status looked up, and no reservation is taken before it. */
  ghost predicate ReleaseIsSafe(s: System, target: SlotStatus, ticket: nat) {
    forall w, e :: InSystem(s, w) && e in w.mailbox && e.ticket == ticket ==>
      && Trails(target, w.rt.status)
      && forall f :: f in w.mailbox && f.command.ReserveVm? ==> ticket < f.ticket
  }

  lemma NoReserveBeforeRelease(p: Shared, task: Task)
    requires TaskOk(p, task) && task.pc.Release?
    ensures task.pc.target.slot < |p.slots| && task.job.Delete?
    ensures task.pc.target.name == Some(task.job.name) && task.pc.target.state.Occupied?
    ensures var w := p.slots[task.pc.target.slot];
            Trails(task.pc.target, w.rt.status) && forall e :: e in w.mailbox ==> !e.command.ReserveVm?
  {
    hide CallOk, SoleName, Trails;
    assert TargetOk(p, task.job, task.since, task.pc.target);
  }

  lemma ReleaseStartsSafe(s: System, t: nat)
    requires Inv(s) && Enabled(s, Send(t)) && s.tasks[t].pc.Release? && PostOf(s, Send(t)).Some?
    ensures ReleaseIsSafe(Step(s, Send(t)), s.tasks[t].pc.target, s.pool.nextTicket)
    ensures PostOf(s, Send(t)).value == (s.tasks[t].pc.target.slot, ReleaseVm)
  {
    assert TaskOk(s.pool, s.tasks[t]);
    hide Inv, Step, InSystem, TaskOk, Trails;
    NoReserveBeforeRelease(s.pool, s.tasks[t]);
    forall w', e | InSystem(Step(s, Send(t)), w') && e in w'.mailbox && e.ticket == s.pool.nextTicket
      ensures Trails(s.tasks[t].pc.target, w'.rt.status)
      ensures forall f :: f in w'.mailbox && f.command.ReserveVm? ==> s.pool.nextTicket < f.ticket
    {
      var w := EnvelopeOrigin(s, Send(t), w', e);
    }
  }

  lemma TakenBefore(p: Shared, i: nat, w: Worker, event: WorkerEvent, e: Envelope)
    requires WorkerOk(p, i, w) && WorkerCan(w, true, event) && event.Take? && e in WorkerAfter(w, event).mailbox
    ensures w.mailbox[0].ticket < e.ticket && w.mailbox[0] in w.mailbox
  {
    var k :| 1 <= k < |w.mailbox| && w.mailbox[k] == e;
  }

  lemma ReleaseStaysSafe(s: System, a: Action, target: SlotStatus, ticket: nat)
    requires Inv(s) && Enabled(s, a) && ReleaseIsSafe(s, target, ticket) && ticket < s.pool.nextTicket
    ensures ReleaseIsSafe(Step(s, a), target, ticket)
  {
    hide Inv, Step, InSystem, Trails, WorkerAfter;
    forall w', e | InSystem(Step(s, a), w') && e in w'.mailbox && e.ticket == ticket
      ensures Trails(target, w'.rt.status)
      ensures forall f :: f in w'.mailbox && f.command.ReserveVm? ==> ticket < f.ticket
    {
      var w := EnvelopeOrigin(s, a, w', e);
      if Mover(s, a) == Some(w) {
        InSystemIsOk(s, w);
        MailboxShrinks(w, a.event);
        if a.event.Take? {
          TakenBefore(s.pool, w.rt.status.slot, w, a.event, e);
        }
        TrailsKept(target, w, a.event);
      }
    }
  }

  lemma {:induction false} ReleaseIsSafeWhileQueued(config: Config, states: seq<System>, actions: seq<Action>, n: nat, m: nat, t: nat, i: nat)
    requires IsRun(config, states, actions) && n < m < |states|
    requires SentAt(states, actions, n, t, i) && states[n].tasks[t].pc.Release?
    ensures ReleaseIsSafe(states[m], states[n].tasks[t].pc.target, states[n].pool.nextTicket)
    ensures states[n].pool.nextTicket < states[m].pool.nextTicket
    decreases m
  {
    hide Step, ReleaseIsSafe;
    RunsKeepInvariants(config, states, actions, m - 1);
    StepAnswers(states[m - 1], actions[m - 1]);
    if m == n + 1 {
      ReleaseStartsSafe(states[n], t);
    } else {
      ReleaseIsSafeWhileQueued(config, states, actions, n, m - 1, t, i);
      ReleaseStaysSafe(states[m - 1], actions[m - 1], states[n].tasks[t].pc.target, states[n].pool.nextTicket);
    }
  }

  lemma ReleaseComesFromDelete(s: System, t: nat)
    requires Inv(s) && t in s.tasks && s.tasks[t].pc.Release?
    ensures s.tasks[t].job.Delete? && s.tasks[t].pc.target.name == Some(s.tasks[t].job.name) && s.tasks[t].pc.target.state.Occupied?
  {
    hide PoolOk, TaskOk;
    NoReserveBeforeRelease(s.pool, s.tasks[t]);
  }

  lemma ReleaseTakes(w: Worker, event: WorkerEvent, target: SlotStatus)
    requires WorkerCan(w, true, event) && event.Take? && w.mailbox[0].command.ReleaseVm?
    requires WellFormed(w.rt) && Trails(target, w.rt.status)
    ensures var before, after := w.rt.status, WorkerAfter(w, event).rt.status;
            var reply := ReplyTo(w.rt, w.mailbox[0].command, event.tapError);
            if before.state.Occupied?
            then before.generation == target.generation && before.name == target.name
                 && after.state.Empty? && after.generation == target.generation + 1 && reply == Ok(after)
            else after == before && reply == Err(InvalidTransition(before.slot, before.state, "release"))
  {
  }

  /**
   The release a delete sent at step `n`, taken at step `m`, even if the delete was cancelled and
   dropped its guard in between: it ends exactly the reservation that was looked up, or is refused
   and changes nothing; and that is what the answer says.
   */
  lemma ReleaseHitsItsTarget(config: Config, states: seq<System>, actions: seq<Action>, n: nat, m: nat, t: nat, i: nat, w: Worker)
    requires IsRun(config, states, actions) && n < m < |actions|
    requires SentAt(states, actions, n, t, i) && states[n].tasks[t].pc.Release?
    requires TakenAt(states, actions, m, w, states[n].pool.nextTicket)
    ensures var target := states[n].tasks[t].pc.target;
            var before, after := w.rt.status, WorkerAfter(w, actions[m].event).rt.status;
            var answer := states[m + 1].pool.answers[states[n].pool.nextTicket];
            && states[n].tasks[t].job.Delete? && target.name == Some(states[n].tasks[t].job.name)
            && i == target.slot && Serves(states[m], i, w) && w.id == states[n].pool.slots[i].id
            && (if before.state.Occupied?
                then before.generation == target.generation && before.name == target.name
                     && after.state.Empty? && after.generation == target.generation + 1 && answer == Answer(w.id, Ok(after))
                else after == before && answer == Answer(w.id, Err(InvalidTransition(i, before.state, "release"))))
  {
    hide Step, Inv, InSystem, Descends, TaskOk;
    RunsKeepInvariants(config, states, actions, n);
    RunsKeepInvariants(config, states, actions, m);
    ReleaseComesFromDelete(states[n], t);
    ReleaseStartsSafe(states[n], t);
    CommandsArrive(config, states, actions, n, m, t, i, w);
    ReleaseIsSafeWhileQueued(config, states, actions, n, m, t, i);
    InSystemIsOk(states[m], w);
    assert w.mailbox[0] in w.mailbox;
    ReleaseTakes(w, actions[m].event, states[n].tasks[t].pc.target);
  }
}
