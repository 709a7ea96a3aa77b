/**
 Create and its cleanup let go of the lock after reserving. This module follows one create
 through a run, from the step that grants its reservation to the steps at which its requests, its
 mark or its reset take effect, and states exactly when those meet its own reservation.
 */
module Bookings {
  import opened Slots
  import opened SlotSteps
  import opened Decimal
  import opened Protocol
  import opened ProtocolInvariant
  import opened PoolMoves
  import opened PoolTheorems
  import opened Workers
  import opened Reservations
  import opened Deliveries

  /** Step `n` grants the reservation that task `t` is waiting for, at slot `i`. */
  predicate GrantedTo(states: seq<System>, actions: seq<Action>, n: nat, t: nat, i: nat)
    requires n < |actions| && n < |states| && Enabled(states[n], actions[n])
  {
    && actions[n].WorkerStep? && actions[n].slot == i && Grants(states[n].pool.slots[i], actions[n].event)
    && t in states[n].tasks && states[n].tasks[t].pc.Reserve? && states[n].tasks[t].call.Some?
    && states[n].pool.slots[i].mailbox[0].ticket == states[n].tasks[t].call.value.ticket
  }

  // ---------- A task remembers what it was granted ----------

  /** The answer that grants the booking lies ready. */
  ghost predicate GrantWaits(p: Shared, task: Task, booking: Booking) {
    && task.pc.Reserve? && task.call.Some? && task.call.value.ticket in p.answers
    && match p.answers[task.call.value.ticket]
       case Answer(worker, Ok(status)) => booking == Booking(status.slot, worker, status.generation)
       case _ => false
  }

  /** The task is about to be told of its booking, carries it, or is done. */
  ghost predicate Carries(p: Shared, task: Task, job: Job, booking: Booking) {
    && task.job == job && job.Create?
    && (GrantWaits(p, task, booking)
        || (BookingOf(task.pc).Some? && BookingOf(task.pc).value.0 == booking)
        || task.pc.Done?)
  }

  /** What a create does next, once it was granted a reservation. */
  lemma OwnStepCarries(s: System, a: Action, t: nat, job: Job, booking: Booking)
    requires Enabled(s, a) && ActingTask(a) == Some(t) && t in s.tasks && TaskOk(s.pool, s.tasks[t])
    requires Carries(s.pool, s.tasks[t], job, booking)
    ensures t in Step(s, a).tasks && Carries(Step(s, a).pool, Step(s, a).tasks[t], job, booking)
  {
    match a {
      case Acquire(_) => EntryCarries(s.tasks[t], s.pool.nextTicket, booking);
      case Send(_) => SendCarries(s, t, job, booking);
      case Receive(_) => ReceiveCarries(s.pool, s.tasks[t], booking);
      case Decide(_, o) => DecisionCarries(s.pool, s.tasks[t], o, booking);
      case Cancel(_) =>
    }
  }

  lemma EntryCarries(task: Task, since: nat, booking: Booking)
    requires Entry(task).Some? && BookingOf(task.pc).Some? && BookingOf(task.pc).value.0 == booking
    ensures var next := Entry(task).value.1; BookingOf(next).Some? && BookingOf(next).value.0 == booking
  {
  }

  lemma SendCarries(s: System, t: nat, job: Job, booking: Booking)
    requires Enabled(s, Send(t)) && job.Create? && s.tasks[t].job == job
    requires BookingOf(s.tasks[t].pc).Some? && BookingOf(s.tasks[t].pc).value.0 == booking
    ensures Carries(Step(s, Send(t)).pool, Step(s, Send(t)).tasks[t], job, booking)
  {
  }

  lemma ReceiveCarries(p: Shared, task: Task, booking: Booking)
    requires task.job.Create? && task.call.Some? && task.call.value.ticket in p.answers
    requires Carries(p, task, task.job, booking) && !task.pc.Done?
    ensures var next := OnAnswer(task, p.answers[task.call.value.ticket]);
            next.Done? || (BookingOf(next).Some? && BookingOf(next).value.0 == booking)
  {
  }

  lemma DecisionCarries(p: Shared, task: Task, o: Oracle, booking: Booking)
    requires CanDecide(p, task) && task.job.Create? && BookingOf(task.pc).Some? && BookingOf(task.pc).value.0 == booking
    ensures var next := Plan(p, task, o).0;
            next.Done? || (BookingOf(next).Some? && BookingOf(next).value.0 == booking)
  {
  }

  lemma StepCarries(s: System, a: Action, t: nat, job: Job, booking: Booking)
    requires Inv(s) && Unanswered(s) && Enabled(s, a) && t in s.tasks && Carries(s.pool, s.tasks[t], job, booking)
    ensures t in Step(s, a).tasks && Carries(Step(s, a).pool, Step(s, a).tasks[t], job, booking)
  {
    hide Step, Unanswered, PoolOk, TaskOk, Exclusive;
    if ActingTask(a) == Some(t) {
      OwnStepCarries(s, a, t, job, booking);
    } else {
      TasksRemain(s, a, t);
      OnlyTheActorMoves(s, a, t);
      if GrantWaits(s.pool, s.tasks[t], booking) {
        StepKeepsAnswers(s, a, s.tasks[t].call.value.ticket);
      }
    }
  }

  // ---------- From the grant on ----------

  /** What the grant at step `n` amounts to: slot, worker and generation. */
  function BookingAt(states: seq<System>, n: nat, i: nat): Booking
    requires n + 1 < |states| && i < |states[n].pool.slots| && i < |states[n + 1].pool.slots|
  {
    Booking(i, states[n].pool.slots[i].id, states[n + 1].pool.slots[i].rt.status.generation)
  }

  lemma CallIsServed(p: Shared, task: Task, i: nat, event: WorkerEvent)
    requires CallOk(p, task) && task.call.Some? && WorkerEnabled(p, i, event) && event.Take?
    requires p.slots[i].mailbox[0].ticket == task.call.value.ticket
    ensures i == task.call.value.slot && p.slots[i].mailbox[0].command == task.call.value.command
    ensures RequestAt(task, |p.slots|) == Some((i, p.slots[i].mailbox[0].command))
    ensures task.call.value.ticket < p.nextTicket
  {
    assert p.slots[i].mailbox[0] in p.slots[i].mailbox;
  }

  /** The granted slot as the step leaves it, and the answer under way. */
  lemma GrantIsAnswered(p: Shared, task: Task, i: nat, event: WorkerEvent)
    requires SlotsOk(p) && CallOk(p, task) && JobFits(task.job, task.pc) && task.pc.Reserve? && task.call.Some?
    requires WorkerEnabled(p, i, event) && Grants(p.slots[i], event)
    requires p.slots[i].mailbox[0].ticket == task.call.value.ticket
    ensures var w, q := p.slots[i], WorkerStepped(p, i, event);
            && i < |q.slots| && q.slots[i].id == w.id && task.job.Create? && NameOf(q.slots[i]) == Some(task.job.name)
            && GrantWaits(q, task, Booking(i, w.id, q.slots[i].rt.status.generation))
  {
    CallIsServed(p, task, i, event);
    assert WorkerOk(p, i, p.slots[i]);
    hide CallOk, SlotsOk, WorkerOk;
  }

  lemma GrantStarts(config: Config, states: seq<System>, actions: seq<Action>, n: nat, t: nat, i: nat)
    requires IsRun(config, states, actions) && n < |actions| && GrantedTo(states, actions, n, t, i)
    ensures i < |states[n].pool.slots| && i < |states[n + 1].pool.slots| && t in states[n + 1].tasks
    ensures Serves(states[n + 1], i, states[n + 1].pool.slots[i]) && Holds(states[n + 1].pool.slots[i], BookingAt(states, n, i))
    ensures states[n].tasks[t].job.Create? && NameOf(states[n + 1].pool.slots[i]) == Some(states[n].tasks[t].job.name)
    ensures Carries(states[n + 1].pool, states[n + 1].tasks[t], states[n].tasks[t].job, BookingAt(states, n, i))
  {
    hide Inv, TaskOk, SlotsOk, GrantWaits, InSystem, WorkerStepped;
    RunsKeepInvariants(config, states, actions, n);
    RunsKeepInvariants(config, states, actions, n + 1);
    WhatGrantNeeds(states[n], t);
    GrantIsAnswered(states[n].pool, states[n].tasks[t], i, actions[n].event);
    InPoolIsInSystem(states[n + 1], i);
  }

  lemma WhatGrantNeeds(s: System, t: nat)
    requires Inv(s) && t in s.tasks && s.tasks[t].pc.Reserve?
    ensures SlotsOk(s.pool) && CallOk(s.pool, s.tasks[t]) && JobFits(s.tasks[t].job, s.tasks[t].pc) && s.tasks[t].job.Create?
  {
    assert TaskOk(s.pool, s.tasks[t]);
  }

  lemma {:induction false} StillCarries(config: Config, states: seq<System>, actions: seq<Action>, from: nat, until: nat, t: nat, job: Job, booking: Booking)
    requires IsRun(config, states, actions) && from <= until < |states|
    requires t in states[from].tasks && Carries(states[from].pool, states[from].tasks[t], job, booking)
    ensures t in states[until].tasks && Carries(states[until].pool, states[until].tasks[t], job, booking)
    decreases until
  {
    hide Step, Carries, Unanswered;
    if from < until {
      StillCarries(config, states, actions, from, until - 1, t, job, booking);
      RunsKeepInvariants(config, states, actions, until - 1);
      TicketsAreUsedOnce(config, states, actions, until - 1);
      StepCarries(states[until - 1], actions[until - 1], t, job, booking);
    }
  }

  /** Once it has its booking, the point of the program where a create is tells which. */
  lemma CarriedBooking(p: Shared, task: Task, job: Job, booking: Booking)
    requires Carries(p, task, job, booking) && JobFits(task.job, task.pc)
    requires task.pc.PutCreate? || task.pc.PutBoot? || task.pc.Mark? || task.pc.Cleanup?
    ensures task.job == job
    ensures if task.pc.Cleanup? then task.pc.booked == Some(booking) && task.pc.slot == booking.slot else task.pc.booking == booking
  {
  }

  /** The worker still holds this booking. */
  predicate Holds(w: Worker, booking: Booking) {
    w.rt.status.slot == booking.slot && w.id == booking.worker && w.rt.status.generation == booking.generation
  }

  /** A name carried after the grant belongs to its booking exactly when nothing else was granted there since. */
  lemma HoldsIffUndisturbed(config: Config, states: seq<System>, actions: seq<Action>, n: nat, m: nat, t: nat, i: nat, w: Worker)
    requires IsRun(config, states, actions) && n < m < |states| && GrantedTo(states, actions, n, t, i)
    requires Serves(states[m], i, w) && Named(w)
    ensures i < |states[n].pool.slots| && i < |states[n + 1].pool.slots|
    ensures Holds(w, BookingAt(states, n, i)) <==> NoGrants(states, actions, n + 1, m, i)
  {
    hide Step, InSystem, NoGrants, Carries;
    GrantStarts(config, states, actions, n, t, i);
    SameReservationIffNoOtherGrant(config, states, actions, n + 1, m, i, states[n + 1].pool.slots[i], w);
  }

  /** The slot carries a VM other than the booked one. */
  predicate CarriesAnother(w: Worker, booking: Booking) {
    Named(w) && !Holds(w, booking)
  }

  /** The slot carries the booked VM. */
  predicate CarriesBooked(w: Worker, booking: Booking) {
    Named(w) && Holds(w, booking)
  }

  /** A VM that the slot carries is another than the booked one if and only if something was granted there since. */
  ghost predicate AnotherIffDisturbed(states: seq<System>, actions: seq<Action>, from: nat, until: nat, w: Worker, booking: Booking)
    requires AllEnabled(states, actions) && until <= |actions|
  {
    && (CarriesAnother(w, booking) <==> Named(w) && !NoGrants(states, actions, from, until, booking.slot))
    && (CarriesBooked(w, booking) <==> Named(w) && NoGrants(states, actions, from, until, booking.slot))
  }

  // ---------- The reservation a create leaves behind ----------

  /**
   Until shutdown, a slot still holds the reservation a create was granted at step `n` if and only
   if nothing ended its VM since: no release, no exit of its process, no reset. Whether the create
   succeeded, timed out, failed or was cancelled does not matter.
   */
  lemma ReservationStaysUntilCleared(config: Config, states: seq<System>, actions: seq<Action>, n: nat, m: nat, t: nat, i: nat)
    requires IsRun(config, states, actions) && n < m < |states| && GrantedTo(states, actions, n, t, i) && !states[m].pool.shutdown
    ensures i < |states[n].pool.slots| && i < |states[n + 1].pool.slots|
    ensures var held := i < |states[m].pool.slots| && Holds(states[m].pool.slots[i], BookingAt(states, n, i));
            && (held <==> NoClears(states, actions, n + 1, m, i))
            && states[n].tasks[t].job.Create?
            && (held ==> NameOf(states[m].pool.slots[i]) == Some(states[n].tasks[t].job.name))
  {
    hide Step, Inv, InSystem, NoClears, Carries, Descends;
    GrantStarts(config, states, actions, n, t, i);
    ReservationStaysIffNotCleared(config, states, actions, n + 1, m, i, states[n + 1].pool.slots[i]);
    if i < |states[m].pool.slots| {
      RunsKeepInvariants(config, states, actions, m);
      InPoolIsInSystem(states[m], i);
      if Holds(states[m].pool.slots[i], BookingAt(states, n, i)) {
        SameWorkerDescends(config, states, actions, n + 1, m, i, states[n + 1].pool.slots[i], states[m].pool.slots[i]);
        SameGenerationSameName(states, actions, n + 1, m, i, states[n + 1].pool.slots[i], states[m].pool.slots[i]);
      }
    }
  }

  lemma SameGenerationSameName(states: seq<System>, actions: seq<Action>, from: nat, until: nat, i: nat, a: Worker, b: Worker)
    requires AllEnabled(states, actions) && until <= |actions| && Descends(states, actions, from, until, i, a, b)
    requires a.rt.status.generation == b.rt.status.generation
    ensures NameOf(a) == NameOf(b)
  {
  }

  // ---------- The requests to the hypervisor ----------

  /**
   While a create that was granted a reservation at step `n` sends the requests that create and
   boot its VM, they reach another VM if and only if the slot carries one and some other
   reservation of it was granted in between.
   */
  lemma BootRequestsHitAnotherIffDisturbed(config: Config, states: seq<System>, actions: seq<Action>, n: nat, m: nat, t: nat, i: nat, w: Worker)
    requires IsRun(config, states, actions) && n < m < |states| && GrantedTo(states, actions, n, t, i)
    requires t in states[m].tasks && (states[m].tasks[t].pc.PutCreate? || states[m].tasks[t].pc.PutBoot?)
    requires Serves(states[m], i, w)
    ensures i < |states[n].pool.slots| && i < |states[n + 1].pool.slots|
    ensures states[m].tasks[t].pc.booking == BookingAt(states, n, i)
    ensures AnotherIffDisturbed(states, actions, n + 1, m, w, BookingAt(states, n, i))
  {
    hide Step, InSystem, NoGrants, Holds, Carries;
    GrantStarts(config, states, actions, n, t, i);
    StillCarries(config, states, actions, n + 1, m, t, states[n].tasks[t].job, BookingAt(states, n, i));
    CarriedBooking(states[m].pool, states[m].tasks[t], states[n].tasks[t].job, BookingAt(states, n, i));
    if Named(w) {
      HoldsIffUndisturbed(config, states, actions, n, m, t, i, w);
    }
  }

  // ---------- The mark ----------

  lemma SentKnows(s: System, t: nat)
    requires Inv(s) && Enabled(s, Send(t)) && PostOf(s, Send(t)).Some? && (s.tasks[t].pc.Mark? || s.tasks[t].pc.Cleanup?)
    ensures RequestAt(s.tasks[t], |s.pool.slots|) == PostOf(s, Send(t)) && JobFits(s.tasks[t].job, s.tasks[t].pc)
    ensures s.tasks[t].pc.Mark? ==> BookingOk(s.pool, s.tasks[t].job, s.tasks[t].pc.booking, true)
  {
    assert TaskOk(s.pool, s.tasks[t]);
    hide CallOk, GuardOk, TargetOk, AllocationOk, PoolWorkOk;
  }

  /** A mark accepted in the booked generation yields the VM asked for. */
  lemma MarkYields(p: Shared, job: Job, booking: Booking, startedAt: string, w: Worker, tapError: Option<string>)
    requires BookingOk(p, job, booking, true) && booking.slot < |p.slots| && WellFormed(w.rt)
    requires w.id == p.slots[booking.slot].id && Since(p.slots[booking.slot].rt.status, w.rt.status) && Holds(w, booking)
    requires ReplyTo(w.rt, MarkVmBooted(startedAt), tapError).Ok?
    ensures job.Create? && w.rt.status.pid.Some?
    ensures TryIntoRuntime(ReplyTo(w.rt, MarkVmBooted(startedAt), tapError).value)
            == Ok(VmRuntime(job.name, job.mac, TapName(booking.slot), w.rt.status.pid.value, startedAt))
  {
  }

  lemma DescendsEvolves(states: seq<System>, actions: seq<Action>, from: nat, until: nat, i: nat, a: Worker, b: Worker)
    requires AllEnabled(states, actions) && until <= |actions| && Descends(states, actions, from, until, i, a, b)
    ensures a.id == b.id && Since(a.rt.status, b.rt.status)
  {
  }

  /** What a create that sends its mark at step `s` gets when it is accepted at step `m`. */
  lemma MarkFacts(config: Config, states: seq<System>, actions: seq<Action>, s: nat, m: nat, t: nat, i: nat, w: Worker)
    requires IsRun(config, states, actions) && s < m < |actions|
    requires SentAt(states, actions, s, t, i) && states[s].tasks[t].pc.Mark?
    requires TakenAt(states, actions, m, w, states[s].pool.nextTicket) && ReplyAt(actions, m, w).Ok?
    ensures var booking, startedAt := states[s].tasks[t].pc.booking, states[s].tasks[t].pc.startedAt;
            && i == booking.slot && Serves(states[m], i, w) && Named(w) && JobFits(states[s].tasks[t].job, states[s].tasks[t].pc)
            && (Holds(w, booking) ==>
                  && states[s].tasks[t].job.Create? && w.rt.status.pid.Some?
                  && TryIntoRuntime(ReplyAt(actions, m, w).value)
                     == Ok(VmRuntime(states[s].tasks[t].job.name, states[s].tasks[t].job.mac, TapName(i), w.rt.status.pid.value, startedAt)))
  {
    hide Step, Inv, InSystem, BookingOk, Descends, TryIntoRuntime, Holds;
    RunsKeepInvariants(config, states, actions, s);
    RunsKeepInvariants(config, states, actions, m);
    SentKnows(states[s], t);
    CommandsArrive(config, states, actions, s, m, t, i, w);
    DescendsEvolves(states, actions, s, m, i, states[s].pool.slots[i], w);
    InSystemIsOk(states[m], w);
    if Holds(w, states[s].tasks[t].pc.booking) {
      MarkYields(states[s].pool, states[s].tasks[t].job, states[s].tasks[t].pc.booking, states[s].tasks[t].pc.startedAt,
                 w, actions[m].event.tapError);
    }
  }

  /**
   A create that was granted a reservation at step `n` and sent its mark at step `s`; the mark is
   accepted at step `m`, perhaps after the create was cancelled. It marks its own reservation if
   and only if no other reservation of that slot was granted in between. Then the reply is exactly
   the VM it was asked for, with a process.
   */
  lemma MarkMeetsItsBookingIffUndisturbed(config: Config, states: seq<System>, actions: seq<Action>, n: nat, s: nat, m: nat, t: nat,
                                          i: nat, j: nat, w: Worker)
    requires IsRun(config, states, actions) && n < s < m < |actions| && GrantedTo(states, actions, n, t, i)
    requires SentAt(states, actions, s, t, j) && states[s].tasks[t].pc.Mark?
    requires TakenAt(states, actions, m, w, states[s].pool.nextTicket) && ReplyAt(actions, m, w).Ok?
    ensures i == j && i < |states[n].pool.slots| && i < |states[n + 1].pool.slots|
    ensures states[s].tasks[t].pc.booking == BookingAt(states, n, i)
    ensures Serves(states[m], i, w) && Named(w)
    ensures Holds(w, BookingAt(states, n, i)) <==> NoGrants(states, actions, n + 1, m, i)
    ensures NoGrants(states, actions, n + 1, m, i) ==>
              var job := states[n].tasks[t].job;
              && job.Create? && w.rt.status.pid.Some?
              && TryIntoRuntime(ReplyAt(actions, m, w).value)
                 == Ok(VmRuntime(job.name, job.mac, TapName(i), w.rt.status.pid.value, states[s].tasks[t].pc.startedAt))
  {
    hide Step, InSystem, NoGrants, Carries, Holds, ReplyAt;
    GrantStarts(config, states, actions, n, t, i);
    StillCarries(config, states, actions, n + 1, s, t, states[n].tasks[t].job, BookingAt(states, n, i));
    MarkFacts(config, states, actions, s, m, t, j, w);
    CarriedBooking(states[s].pool, states[s].tasks[t], states[n].tasks[t].job, BookingAt(states, n, i));
    HoldsIffUndisturbed(config, states, actions, n, m, t, i, w);
  }

  // ---------- The cleanup ----------

  /** A reset sent at step `s` clears the slot when it is taken. */
  lemma ResetFacts(config: Config, states: seq<System>, actions: seq<Action>, s: nat, m: nat, t: nat, i: nat, w: Worker)
    requires IsRun(config, states, actions) && s < m < |actions|
    requires SentAt(states, actions, s, t, i) && states[s].tasks[t].pc.Cleanup?
    requires TakenAt(states, actions, m, w, states[s].pool.nextTicket)
    ensures i == states[s].tasks[t].pc.slot && JobFits(states[s].tasks[t].job, states[s].tasks[t].pc)
    ensures Serves(states[m], i, w) && WorkerAfter(w, actions[m].event).rt.status == Cleared(w.rt.status)
  {
    hide Step, Inv, InSystem, Descends;
    RunsKeepInvariants(config, states, actions, s);
    SentKnows(states[s], t);
    CommandsArrive(config, states, actions, s, m, t, i, w);
  }

  /**
   A create that was granted a reservation at step `n` and sent its reset at step `s`; the reset
   takes effect at step `m`, perhaps after the create was cancelled. It ends a VM other than its own
   if and only if there is one in the slot and some other reservation of that slot was granted in
   between; it ends its own if and only if there is one and none was.
   */
  lemma CleanupHitsAnotherIffDisturbed(config: Config, states: seq<System>, actions: seq<Action>, n: nat, s: nat, m: nat, t: nat,
                                       i: nat, j: nat, w: Worker)
    requires IsRun(config, states, actions) && n < s < m < |actions| && GrantedTo(states, actions, n, t, i)
    requires SentAt(states, actions, s, t, j) && states[s].tasks[t].pc.Cleanup?
    requires TakenAt(states, actions, m, w, states[s].pool.nextTicket)
    ensures i == j && i < |states[n].pool.slots| && i < |states[n + 1].pool.slots|
    ensures states[s].tasks[t].pc.booked == Some(BookingAt(states, n, i))
    ensures Serves(states[m], i, w) && WorkerAfter(w, actions[m].event).rt.status == Cleared(w.rt.status)
    ensures AnotherIffDisturbed(states, actions, n + 1, m, w, BookingAt(states, n, i))
  {
    hide Step, InSystem, NoGrants, Carries, Holds;
    GrantStarts(config, states, actions, n, t, i);
    StillCarries(config, states, actions, n + 1, s, t, states[n].tasks[t].job, BookingAt(states, n, i));
    ResetFacts(config, states, actions, s, m, t, j, w);
    CarriedBooking(states[s].pool, states[s].tasks[t], states[n].tasks[t].job, BookingAt(states, n, i));
    if Named(w) {
      HoldsIffUndisturbed(config, states, actions, n, m, t, i, w);
    }
  }

  // ---------- The cleanup of a delete ----------

  /** Step `k` is the refusal that sends the delete `t` to clean up the slot of its target. */
  ghost predicate RefusedAt(states: seq<System>, actions: seq<Action>, k: nat, t: nat)
    requires AllEnabled(states, actions) && k < |actions|
  {
    && actions[k].Decide? && actions[k].task == t
    && t in states[k].tasks && (states[k].tasks[t].pc.PutShutdown? || states[k].tasks[t].pc.PutDelete?)
    && t in states[k + 1].tasks && states[k + 1].tasks[t].pc == CleanupWait(states[k].tasks[t].pc.target.slot, None)
  }

  predicate CleansUp(task: Task, slot: nat) {
    task.job.Delete? && (task.pc == CleanupWait(slot, None) || task.pc == Cleanup(slot, None) || task.pc.Done?)
  }

  lemma OwnStepCleansUp(s: System, a: Action, t: nat, slot: nat)
    requires Enabled(s, a) && ActingTask(a) == Some(t) && t in s.tasks && CallOk(s.pool, s.tasks[t]) && CleansUp(s.tasks[t], slot)
    ensures t in Step(s, a).tasks && CleansUp(Step(s, a).tasks[t], slot)
  {
  }

  lemma StepCleansUp(s: System, a: Action, t: nat, slot: nat)
    requires Inv(s) && Enabled(s, a) && t in s.tasks && CleansUp(s.tasks[t], slot)
    ensures t in Step(s, a).tasks && CleansUp(Step(s, a).tasks[t], slot)
  {
    assert TaskOk(s.pool, s.tasks[t]);
    hide Step, PoolOk, PcOk;
    if ActingTask(a) == Some(t) {
      OwnStepCleansUp(s, a, t, slot);
    } else {
      TasksRemain(s, a, t);
      OnlyTheActorMoves(s, a, t);
    }
  }

  lemma {:induction false} StillCleansUp(config: Config, states: seq<System>, actions: seq<Action>, from: nat, until: nat, t: nat, slot: nat)
    requires IsRun(config, states, actions) && from <= until < |states|
    requires t in states[from].tasks && CleansUp(states[from].tasks[t], slot)
    ensures t in states[until].tasks && CleansUp(states[until].tasks[t], slot)
    decreases until
  {
    hide Step, CleansUp;
    if from < until {
      StillCleansUp(config, states, actions, from, until - 1, t, slot);
      RunsKeepInvariants(config, states, actions, until - 1);
      StepCleansUp(states[until - 1], actions[until - 1], t, slot);
    }
  }

  lemma JobsStay(s: System, a: Action, t: nat)
    requires Enabled(s, a) && t in s.tasks
    ensures t in Step(s, a).tasks && Step(s, a).tasks[t].job == s.tasks[t].job
  {
  }

  lemma TargetOnceNamed(config: Config, states: seq<System>, actions: seq<Action>, k: nat, t: nat)
    requires IsRun(config, states, actions) && k < |states| && t in states[k].tasks
    requires states[k].tasks[t].pc.PutShutdown? || states[k].tasks[t].pc.PutDelete?
    ensures var target, p := states[k].tasks[t].pc.target, states[k].pool;
            && target.slot < |p.slots| && states[k].tasks[t].job.Delete?
            && target.generation <= p.slots[target.slot].rt.status.generation
            && (Named(p.slots[target.slot]) <==> p.slots[target.slot].rt.status.generation == target.generation)
  {
    hide Step, AnswerOk, NoneReserves;
    RunsKeepInvariants(config, states, actions, k);
    assert TaskOk(states[k].pool, states[k].tasks[t]);
    assert TargetOk(states[k].pool, states[k].tasks[t].job, states[k].tasks[t].since, states[k].tasks[t].pc.target);
  }

  /** What the delete looked up: the worker that served the slot under its guard, in the generation looked up. */
  function TargetAt(states: seq<System>, k: nat, target: SlotStatus): Booking
    requires k < |states| && target.slot < |states[k].pool.slots|
  {
    Booking(target.slot, states[k].pool.slots[target.slot].id, target.generation)
  }

  /** A name carried after the refusal belongs to the target exactly when nothing was granted there since. */
  lemma TargetHeldIffUndisturbed(config: Config, states: seq<System>, actions: seq<Action>, k: nat, m: nat, t: nat, w: Worker)
    requires IsRun(config, states, actions) && k < m < |states| && t in states[k].tasks
    requires states[k].tasks[t].pc.PutShutdown? || states[k].tasks[t].pc.PutDelete?
    requires Serves(states[m], states[k].tasks[t].pc.target.slot, w) && Named(w)
    ensures var target := states[k].tasks[t].pc.target;
            && target.slot < |states[k].pool.slots|
            && (Holds(w, TargetAt(states, k, target)) <==> NoGrants(states, actions, k, m, target.slot))
  {
    hide Step, Inv, InSystem, GrantsIn, ClearsIn, Enabled;
    var target := states[k].tasks[t].pc.target;
    TargetOnceNamed(config, states, actions, k, t);
    RunsKeepInvariants(config, states, actions, k);
    InPoolIsInSystem(states[k], target.slot);
    if NoGrants(states, actions, k, m, target.slot) {
      var a := UndisturbedName(config, states, actions, k, m, target.slot, w);
      OneServerPerSlot(states[k], a, states[k].pool.slots[target.slot]);
    }
    if Holds(w, TargetAt(states, k, target)) {
      SameWorkerDescends(config, states, actions, k, m, target.slot, states[k].pool.slots[target.slot], w);
    }
  }

  /**
   A delete that the hypervisor refused at step `k` and that sent its reset at step `s`; the reset
   takes effect at step `m`, perhaps after the delete was cancelled. It ends another VM than the one
   looked up if and only if there is one in the slot and some reservation of that slot was granted
   in between.
   */
  lemma DeleteCleanupHitsAnotherIffDisturbed(config: Config, states: seq<System>, actions: seq<Action>, k: nat, s: nat, m: nat, t: nat,
                                             i: nat, w: Worker)
    requires IsRun(config, states, actions) && k < s < m < |actions| && RefusedAt(states, actions, k, t)
    requires SentAt(states, actions, s, t, i) && states[s].tasks[t].pc.Cleanup?
    requires TakenAt(states, actions, m, w, states[s].pool.nextTicket)
    ensures var target := states[k].tasks[t].pc.target;
            && i == target.slot < |states[k].pool.slots|
            && Serves(states[m], i, w) && WorkerAfter(w, actions[m].event).rt.status == Cleared(w.rt.status)
            && AnotherIffDisturbed(states, actions, k, m, w, TargetAt(states, k, target))
  {
    hide Step, InSystem, NoGrants, Holds;
    var target := states[k].tasks[t].pc.target;
    TargetOnceNamed(config, states, actions, k, t);
    JobsStay(states[k], actions[k], t);
    StillCleansUp(config, states, actions, k + 1, s, t, target.slot);
    ResetFacts(config, states, actions, s, m, t, i, w);
    if Named(w) {
      TargetHeldIffUndisturbed(config, states, actions, k, m, t, w);
    }
  }
}
