/**
 The workers of a system, those in the vector of slots and the one a task popped and awaits:
 where each comes from at a step, that every slot is served by at most one, that a ticket is
 queued at one worker only, and that an answer never changes.
 */
module Workers {
  import opened Slots
  import opened SlotSteps
  import opened Protocol
  import opened ProtocolInvariant
  import opened WorkerSteps
  import opened PoolMoves
  import opened Decisions
  import opened PoolHistory
  import opened PoolTheorems

  // ---------- Where workers are ----------

  ghost predicate InVector(p: Shared, w: Worker) {
    exists i :: 0 <= i < |p.slots| && p.slots[i] == w
  }

  ghost predicate Awaited(s: System, w: Worker) {
    exists t :: t in s.tasks && Joining(s.tasks[t]) && s.tasks[t].pc.popped == w
  }

  ghost predicate InSystem(s: System, w: Worker) {
    InVector(s.pool, w) || Awaited(s, w)
  }

  /** The worker serves slot `i`, in the vector or popped from it. */
  ghost predicate Serves(s: System, i: nat, w: Worker) {
    InSystem(s, w) && w.rt.status.slot == i
  }

  /** A popped worker served the slot just beyond the vector. */
  lemma AwaitedIsOk(s: System, t: nat)
    requires TasksOk(s) && t in s.tasks && Joining(s.tasks[t])
    ensures WorkerOk(s.pool, |s.pool.slots|, s.tasks[t].pc.popped)
  {
    assert TaskOk(s.pool, s.tasks[t]);
  }

  lemma InSystemIsOk(s: System, w: Worker)
    requires Inv(s) && InSystem(s, w)
    ensures WorkerOk(s.pool, w.rt.status.slot, w)
    ensures if w.rt.status.slot < |s.pool.slots| then w == s.pool.slots[w.rt.status.slot]
            else w.rt.status.slot == |s.pool.slots| && Awaited(s, w)
  {
    hide TasksOk, Exclusive, UniqueNames;
    if InVector(s.pool, w) {
      var i :| 0 <= i < |s.pool.slots| && s.pool.slots[i] == w;
      assert WorkerOk(s.pool, i, s.pool.slots[i]);
    } else {
      var t :| t in s.tasks && Joining(s.tasks[t]) && s.tasks[t].pc.popped == w;
      AwaitedIsOk(s, t);
    }
  }

  lemma InPoolIsInSystem(s: System, i: nat)
    requires Inv(s) && i < |s.pool.slots|
    ensures Serves(s, i, s.pool.slots[i])
  {
    assert WorkerOk(s.pool, i, s.pool.slots[i]);
  }

  /** Only a writer awaits a worker, so there is at most one. */
  lemma OneIsAwaited(s: System, v: Worker, w: Worker)
    requires Exclusive(s) && Awaited(s, v) && Awaited(s, w)
    ensures v == w
  {
    var t :| t in s.tasks && Joining(s.tasks[t]) && s.tasks[t].pc.popped == v;
    var u :| u in s.tasks && Joining(s.tasks[u]) && s.tasks[u].pc.popped == w;
    AwaitingIsWriting(s.tasks[t]);
    AwaitingIsWriting(s.tasks[u]);
    hide GuardOf, Joining;
  }

  lemma AwaitingIsWriting(task: Task)
    requires Joining(task)
    ensures GuardOf(task) == WriteGuard
  {
  }

  /** A slot is served by one worker at a time. */
  lemma OneServerPerSlot(s: System, v: Worker, w: Worker)
    requires Inv(s) && InSystem(s, v) && InSystem(s, w) && v.rt.status.slot == w.rt.status.slot
    ensures v == w
  {
    hide PoolOk, TasksOk, Exclusive, WorkerOk, InSystem, Awaited;
    InSystemIsOk(s, v);
    InSystemIsOk(s, w);
    if v.rt.status.slot >= |s.pool.slots| {
      OneIsAwaited(s, v, w);
    }
  }

  /** While a task holds a guard, no worker is awaited by another. */
  lemma NoPoppedStepBeside(s: System, a: Action, u: nat)
    requires Exclusive(s) && Enabled(s, a) && ActingTask(a) != Some(u) && u in s.tasks && !GuardOf(s.tasks[u]).NoGuard?
    ensures !a.PoppedStep?
  {
    assert forall t :: t in s.tasks && t != u ==> !GuardOf(s.tasks[t]).WriteGuard?;
  }

  // ---------- What a step does to a worker ----------

  /** The worker that takes this step. */
  function Mover(s: System, a: Action): Option<Worker>
    requires Enabled(s, a)
  {
    match a
    case WorkerStep(i, _) => Some(s.pool.slots[i])
    case PoppedStep(t, _) => Some(s.tasks[t].pc.popped)
    case _ => None
  }

  /** The slot and command a step posts, if it posts one. */
  function PostOf(s: System, a: Action): (post: Option<(nat, Command)>)
    requires Enabled(s, a)
    ensures post.Some? ==>
              && post.value.0 < |s.pool.slots|
              && s.pool.slots[post.value.0].task.Running? && |s.pool.slots[post.value.0].mailbox| < CHANNEL_CAPACITY
  {
    match a
    case Observe(i) => Some((i, GetVmStatus))
    case Send(t) =>
      var request := RequestAt(s.tasks[t], |s.pool.slots|).value;
      if request.0 < |s.pool.slots| && s.pool.slots[request.0].task.Running? then Some(request) else None
    case _ => None
  }

  /** The worker a step posts a command to. */
  function Receiver(s: System, a: Action): Option<Worker>
    requires Enabled(s, a)
  {
    var post := PostOf(s, a);
    if post.Some? then Some(s.pool.slots[post.value.0]) else None
  }

  function Next(s: System, a: Action, w: Worker): Worker
    requires Enabled(s, a)
  {
    if Mover(s, a) == Some(w) then WorkerAfter(w, a.event)
    else if Receiver(s, a) == Some(w) then w.(mailbox := w.mailbox + [Envelope(s.pool.nextTicket, PostOf(s, a).value.1)])
    else w
  }

  lemma PostsAre(s: System, a: Action)
    requires Enabled(s, a) && !a.Decide? && !a.WorkerStep?
    ensures Step(s, a).pool.slots == match PostOf(s, a)
                                     case Some((i, command)) => Posted(s.pool, i, command).slots
                                     case None => s.pool.slots
  {
  }

  lemma MoverIsOk(s: System, a: Action)
    requires Inv(s) && Enabled(s, a) && Mover(s, a).Some?
    ensures InSystem(s, Mover(s, a).value) && WorkerCan(Mover(s, a).value, s.pool.shutdown, a.event)
    ensures WorkerOk(s.pool, if a.WorkerStep? then a.slot else |s.pool.slots|, Mover(s, a).value)
  {
    if a.PoppedStep? {
      AwaitedIsOk(s, a.task);
    } else {
      assert WorkerOk(s.pool, a.slot, s.pool.slots[a.slot]);
    }
  }

  lemma MoverLeavesVector(s: System, a: Action, i: nat)
    requires Enabled(s, a) && Mover(s, a).Some? && i < |s.pool.slots|
    requires forall k :: 0 <= k < |s.pool.slots| ==> s.pool.slots[k].rt.status.slot == k
    requires a.PoppedStep? ==> Mover(s, a).value.rt.status.slot == |s.pool.slots|
    ensures |Step(s, a).pool.slots| == |s.pool.slots| && Step(s, a).pool.slots[i] == Next(s, a, s.pool.slots[i])
  {
  }

  lemma PostLeavesVector(s: System, a: Action, i: nat)
    requires Enabled(s, a) && !a.Decide? && Mover(s, a).None? && i < |s.pool.slots|
    requires forall k :: 0 <= k < |s.pool.slots| ==> s.pool.slots[k].rt.status.slot == k
    ensures |Step(s, a).pool.slots| == |s.pool.slots| && Step(s, a).pool.slots[i] == Next(s, a, s.pool.slots[i])
  {
    PostsAre(s, a);
    hide Step;
  }

  lemma DecisionLeavesVector(s: System, a: Action, i: nat)
    requires Enabled(s, a) && a.Decide? && i < |Step(s, a).pool.slots|
    ensures if i < |s.pool.slots| then Step(s, a).pool.slots[i] == s.pool.slots[i]
            else i == |s.pool.slots| && Step(s, a).pool.slots[i] == FreshWorker(s.pool.nextWorker, i)
                 && Step(s, a).pool.nextWorker == s.pool.nextWorker + 1
  {
    DecisionIs(s, a.task, a.oracle);
    hide Step;
  }

  lemma PositionsAreSlots(s: System)
    requires Inv(s)
    ensures forall k :: 0 <= k < |s.pool.slots| ==> s.pool.slots[k].rt.status.slot == k
  {
    hide TasksOk, Exclusive, UniqueNames;
    forall k | 0 <= k < |s.pool.slots| ensures s.pool.slots[k].rt.status.slot == k {
      assert WorkerOk(s.pool, k, s.pool.slots[k]);
    }
  }

  /** A worker of the vector was there before, or was just started. */
  lemma VectorOrigin(s: System, a: Action, i: nat)
    requires Inv(s) && Enabled(s, a) && i < |Step(s, a).pool.slots|
    ensures if i < |s.pool.slots| then Step(s, a).pool.slots[i] == Next(s, a, s.pool.slots[i])
            else a.Decide? && i == |s.pool.slots| && Step(s, a).pool.slots[i] == FreshWorker(s.pool.nextWorker, i)
                 && Step(s, a).pool.nextWorker == s.pool.nextWorker + 1
  {
    PositionsAreSlots(s);
    if a.Decide? {
      DecisionLeavesVector(s, a, i);
    } else {
      SameSize(s, a);
      if Mover(s, a).Some? {
        MoverIsOk(s, a);
        hide Step, Inv, WorkerOk;
        MoverLeavesVector(s, a, i);
      } else {
        PostLeavesVector(s, a, i);
      }
    }
    hide Step, Inv;
  }

  lemma SameSize(s: System, a: Action)
    requires Enabled(s, a) && !a.Decide?
    ensures |Step(s, a).pool.slots| == |s.pool.slots|
  {
  }

  lemma DecisionPops(s: System, a: Action)
    requires Enabled(s, a) && a.Decide? && Joining(Step(s, a).tasks[a.task])
    ensures |s.pool.slots| > 0 && Step(s, a).tasks[a.task].pc.popped == s.pool.slots[|s.pool.slots| - 1]
    ensures !Joining(s.tasks[a.task])
  {
    DecisionIs(s, a.task, a.oracle);
    hide Step;
  }

  /** The step of the task that awaits a worker after it. */
  lemma ActorAwaits(s: System, a: Action, t: nat)
    requires Enabled(s, a) && ActingTask(a) == Some(t) && t in Step(s, a).tasks && Joining(Step(s, a).tasks[t])
    requires t in s.tasks ==> TaskOk(s.pool, s.tasks[t])
    ensures a.PoppedStep? || a.Decide?
  {
    hide GuardOk, AnswerOk, BookingOk, TargetOk, AllocationOk, PoolWorkOk;
  }

  /** Somebody else's step does not touch the worker a task awaits. */
  lemma AwaitedIsLeftAlone(s: System, a: Action, t: nat)
    requires Exclusive(s) && Enabled(s, a) && ActingTask(a) != Some(t) && t in s.tasks && Joining(s.tasks[t])
    requires s.tasks[t].pc.popped.rt.status.slot == |s.pool.slots|
    requires forall k :: 0 <= k < |s.pool.slots| ==> s.pool.slots[k].rt.status.slot == k
    ensures Next(s, a, s.tasks[t].pc.popped) == s.tasks[t].pc.popped
  {
    NoPoppedStepBeside(s, a, t);
    hide Exclusive;
  }

  /** A worker that is awaited now was before, or was the last of the vector. */
  lemma AwaitedOrigin(s: System, a: Action, t: nat)
    requires Inv(s) && Enabled(s, a) && t in Step(s, a).tasks && Joining(Step(s, a).tasks[t])
    ensures var w' := Step(s, a).tasks[t].pc.popped;
            if t in s.tasks && Joining(s.tasks[t]) then w' == Next(s, a, s.tasks[t].pc.popped)
            else a.Decide? && |s.pool.slots| > 0 && w' == s.pool.slots[|s.pool.slots| - 1] == Next(s, a, w')
  {
    hide PoolOk, TaskOk, Exclusive;
    if ActingTask(a) == Some(t) {
      ActorAwaits(s, a, t);
      if a.Decide? {
        DecisionPops(s, a);
      } else {
        PoppedStepIs(s, t, a.event);
      }
    } else {
      OnlyTheActorMoves(s, a, t);
      PositionsAreSlots(s);
      AwaitedIsOk(s, t);
      AwaitedIsLeftAlone(s, a, t);
    }
  }

  /** Every worker of the next system was just started, or comes from one of this system. */
  lemma Origin(s: System, a: Action, w': Worker) returns (origin: Option<Worker>)
    requires Inv(s) && Enabled(s, a) && InSystem(Step(s, a), w')
    ensures match origin
            case None => w' == FreshWorker(s.pool.nextWorker, |s.pool.slots|)
            case Some(w) => InSystem(s, w) && w' == Next(s, a, w)
  {
    hide Inv, Step, Next;
    var s' := Step(s, a);
    if InVector(s'.pool, w') {
      var i :| 0 <= i < |s'.pool.slots| && s'.pool.slots[i] == w';
      VectorOrigin(s, a, i);
      origin := if i < |s.pool.slots| then Some(s.pool.slots[i]) else None;
    } else {
      var t :| t in s'.tasks && Joining(s'.tasks[t]) && s'.tasks[t].pc.popped == w';
      AwaitedOrigin(s, a, t);
      origin := Some(if t in s.tasks && Joining(s.tasks[t]) then s.tasks[t].pc.popped else w');
    }
  }

  /** A step only adds the answers of the worker that takes it, and issues at most one ticket. */
  lemma StepAnswers(s: System, a: Action)
    requires Enabled(s, a)
    ensures Step(s, a).pool.answers == if Mover(s, a).Some? then s.pool.answers + NewAnswers(Mover(s, a).value, a.event) else s.pool.answers
    ensures Step(s, a).pool.nextTicket == s.pool.nextTicket + (if PostOf(s, a).Some? then 1 else 0)
    ensures s.pool.nextWorker <= Step(s, a).pool.nextWorker
  {
  }

  // ---------- Tickets ----------

  /** A ticket is queued at one worker only. */
  ghost predicate QueuedOnce(s: System) {
    forall v, w, e, f :: InSystem(s, v) && InSystem(s, w) && e in v.mailbox && f in w.mailbox && e.ticket == f.ticket ==>
      v.rt.status.slot == w.rt.status.slot
  }

  /** What is still queued was not answered. */
  ghost predicate Unanswered(s: System) {
    forall w, e :: InSystem(s, w) && e in w.mailbox ==> e.ticket !in s.pool.answers
  }

  /** An envelope of the next system was queued before, or carries the ticket issued by this step. */
  lemma EnvelopeOrigin(s: System, a: Action, w': Worker, e: Envelope) returns (w: Worker)
    requires Inv(s) && Enabled(s, a) && InSystem(Step(s, a), w') && e in w'.mailbox
    ensures InSystem(s, w) && w' == Next(s, a, w) && w.rt.status.slot == w'.rt.status.slot
    ensures if e in w.mailbox then e.ticket < s.pool.nextTicket
            else Receiver(s, a) == Some(w) && e == Envelope(s.pool.nextTicket, PostOf(s, a).value.1)
  {
    hide Inv, Step;
    var origin := Origin(s, a, w');
    w := origin.value;
    InSystemIsOk(s, w);
    if Mover(s, a) == Some(w) {
      MailboxShrinks(w, a.event);
      assert e in w.mailbox;
    }
  }

  lemma StepQueuesOnce(s: System, a: Action)
    requires Inv(s) && Enabled(s, a) && QueuedOnce(s)
    ensures QueuedOnce(Step(s, a))
  {
    hide Inv, Step, Next, InSystem;
    var s' := Step(s, a);
    forall v', w', e, f | InSystem(s', v') && InSystem(s', w') && e in v'.mailbox && f in w'.mailbox && e.ticket == f.ticket
      ensures v'.rt.status.slot == w'.rt.status.slot
    {
      var v := EnvelopeOrigin(s, a, v', e);
      var w := EnvelopeOrigin(s, a, w', f);
    }
  }

  lemma TicketsOf(w: Worker, event: WorkerEvent, ticket: nat) returns (e: Envelope)
    requires WorkerCan(w, true, event) && ticket in NewAnswers(w, event)
    ensures e in w.mailbox && e.ticket == ticket
  {
    e := w.mailbox[0];
    if !event.Take? {
      e :| e in w.mailbox && e.ticket == ticket;
    }
  }

  /** What a worker answers it no longer holds. */
  lemma AnsweredLeaves(p: Shared, i: nat, w: Worker, event: WorkerEvent, e: Envelope)
    requires WorkerOk(p, i, w) && WorkerCan(w, true, event) && e in WorkerAfter(w, event).mailbox
    ensures e.ticket !in NewAnswers(w, event)
  {
    if event.Take? {
      var k :| 1 <= k < |w.mailbox| && w.mailbox[k] == e;
      assert w.mailbox[0].ticket < w.mailbox[k].ticket;
    }
  }

  lemma StepLeavesUnanswered(s: System, a: Action)
    requires Inv(s) && Enabled(s, a) && QueuedOnce(s) && Unanswered(s)
    ensures Unanswered(Step(s, a))
  {
    hide Step, InSystem, NewAnswers, WorkerAfter, SlotsOk, TasksOk, UniqueNames, Exclusive;
    var s' := Step(s, a);
    forall w', e | InSystem(s', w') && e in w'.mailbox ensures e.ticket !in s'.pool.answers {
      var w := EnvelopeOrigin(s, a, w', e);
      StepAnswers(s, a);
      if Mover(s, a).Some? {
        var mover := Mover(s, a).value;
        MoverIsOk(s, a);
        if mover == w {
          InSystemIsOk(s, w);
          AnsweredLeaves(s.pool, w.rt.status.slot, w, a.event, e);
        } else if e.ticket in NewAnswers(mover, a.event) {
          var f := TicketsOf(mover, a.event, e.ticket);
          OneServerPerSlot(s, mover, w);
          assert false;
        }
      }
    }
  }

  lemma {:induction false} TicketsAreUsedOnce(config: Config, states: seq<System>, actions: seq<Action>, k: nat)
    requires IsRun(config, states, actions) && k < |states|
    ensures QueuedOnce(states[k]) && Unanswered(states[k])
  {
    hide Step, QueuedOnce, Unanswered;
    if k == 0 {
      NothingQueuedAtFirst(config);
    } else {
      TicketsAreUsedOnce(config, states, actions, k - 1);
      RunsKeepInvariants(config, states, actions, k - 1);
      StepQueuesOnce(states[k - 1], actions[k - 1]);
      StepLeavesUnanswered(states[k - 1], actions[k - 1]);
    }
  }

  lemma NothingQueuedAtFirst(config: Config)
    ensures QueuedOnce(InitialSystem(config)) && Unanswered(InitialSystem(config))
  {
    var s := InitialSystem(config);
    forall w | InSystem(s, w) ensures w.mailbox == [] {
      var i :| 0 <= i < |s.pool.slots| && s.pool.slots[i] == w;
    }
  }

  lemma StepKeepsAnswers(s: System, a: Action, ticket: nat)
    requires Inv(s) && Enabled(s, a) && Unanswered(s) && ticket in s.pool.answers
    ensures ticket in Step(s, a).pool.answers && Step(s, a).pool.answers[ticket] == s.pool.answers[ticket]
  {
    hide Step, InSystem, NewAnswers;
    StepAnswers(s, a);
    if Mover(s, a).Some? {
      MoverIsOk(s, a);
      if ticket in NewAnswers(Mover(s, a).value, a.event) {
        var e := TicketsOf(Mover(s, a).value, a.event, ticket);
        assert false;
      }
    }
  }

  /** An answer, once given, stays the answer in every later state. */
  lemma {:induction false} AnswersAreFinal(config: Config, states: seq<System>, actions: seq<Action>, k: nat, m: nat, ticket: nat)
    requires IsRun(config, states, actions) && k <= m < |states| && ticket in states[k].pool.answers
    ensures ticket in states[m].pool.answers && states[m].pool.answers[ticket] == states[k].pool.answers[ticket]
    decreases m
  {
    hide Step, Unanswered;
    if k < m {
      AnswersAreFinal(config, states, actions, k, m - 1, ticket);
      TicketsAreUsedOnce(config, states, actions, m - 1);
      RunsKeepInvariants(config, states, actions, m - 1);
      StepKeepsAnswers(states[m - 1], actions[m - 1], ticket);
    }
  }
}
