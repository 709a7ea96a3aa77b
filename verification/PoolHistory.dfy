/**
 What the pool has been through: when it was scaled down, how many reservations it granted and
 cleared, and where every worker it ever started is now.
 */
module PoolHistory {
  import opened Slots
  import opened SlotSteps
  import opened Protocol
  import opened ProtocolInvariant
  import opened PoolMoves
  import opened Decisions

  // ---------- Scale-downs ----------

  ghost predicate Spaced(times: seq<nat>, gap: nat) {
    forall i :: 0 < i < |times| ==> times[i - 1] + gap <= times[i]
  }

  ghost predicate CooldownOk(p: Shared) {
    && Spaced(p.scaleDowns, p.config.cooldown)
    && (if |p.scaleDowns| == 0 then p.lastScaleDown.None?
        else p.lastScaleDown == Some(p.scaleDowns[|p.scaleDowns| - 1]) && p.lastScaleDown.value <= p.clock)
  }

  // ---------- Reservations ----------

  /** The number of slots that carry a VM name. */
  function NamedCount(slots: seq<Worker>): nat {
    if |slots| == 0 then 0
    else NamedCount(slots[..|slots| - 1]) + (if NameOf(slots[|slots| - 1]).Some? then 1 else 0)
  }

  lemma {:induction false} NamedCountUpdate(slots: seq<Worker>, i: nat, w: Worker)
    requires i < |slots|
    ensures NamedCount(slots[i := w]) + (if NameOf(slots[i]).Some? then 1 else 0)
         == NamedCount(slots) + (if NameOf(w).Some? then 1 else 0)
  {
    var n := |slots| - 1;
    if i == n {
      assert slots[i := w][..n] == slots[..n];
    } else {
      assert slots[i := w][..n] == slots[..n][i := w];
      NamedCountUpdate(slots[..n], i, w);
    }
  }

  lemma {:induction false} NothingNamed(slots: seq<Worker>)
    requires forall i :: 0 <= i < |slots| ==> NameOf(slots[i]).None?
    ensures NamedCount(slots) == 0
  {
    if |slots| > 0 {
      NothingNamed(slots[..|slots| - 1]);
    }
  }

  /** Until shutdown, what was reserved and not cleared is what is named now. */
  ghost predicate CountOk(p: Shared) {
    !p.shutdown ==> p.reserved == p.cleared + NamedCount(p.slots)
  }

  lemma EventCounts(w: Worker, event: WorkerEvent)
    requires WellFormed(w.rt) && WorkerCan(w, true, event)
    ensures (if NameOf(WorkerAfter(w, event)).Some? then 1 else 0) + (if Clears(w, event) then 1 else 0)
         == (if NameOf(w).Some? then 1 else 0) + (if Grants(w, event) then 1 else 0)
  {
  }

  lemma WorkerStepCounts(p: Shared, i: nat, event: WorkerEvent)
    requires SlotsOk(p) && CountOk(p) && WorkerEnabled(p, i, event)
    ensures CountOk(WorkerStepped(p, i, event))
  {
    assert WorkerOk(p, i, p.slots[i]);
    EventCounts(p.slots[i], event);
    NamedCountUpdate(p.slots, i, WorkerAfter(p.slots[i], event));
  }

  lemma PostCounts(p: Shared, i: nat, command: Command)
    requires CountOk(p) && i < |p.slots|
    ensures CountOk(Posted(p, i, command))
  {
    NamedCountUpdate(p.slots, i, Posted(p, i, command).slots[i]);
  }

  lemma MoveCounts(p: Shared, move: Move)
    requires CountOk(p) && MayMove(p, move)
    requires move.Pop? && !p.shutdown ==> NameOf(p.slots[|p.slots| - 1]).None?
    ensures CountOk(Moved(p, move))
  {
    if move.Grow? {
      var w := FreshWorker(p.nextWorker, |p.slots|);
      assert (p.slots + [w])[..|p.slots|] == p.slots;
    }
  }

  // ---------- Workers ----------

  predicate Joining(task: Task) {
    task.pc.JoinTail? || task.pc.JoinDrained?
  }

  ghost predicate InPool(p: Shared, id: nat) {
    exists i :: 0 <= i < |p.slots| && p.slots[i].id == id
  }

  ghost predicate Popped(s: System, id: nat) {
    exists t :: t in s.tasks && Joining(s.tasks[t]) && s.tasks[t].pc.popped.id == id
  }

  /** Every worker ever started is in the pool, was joined, or is being joined. */
  ghost predicate Accounted(s: System) {
    forall id: nat :: id < s.pool.nextWorker ==> id in s.pool.joined || InPool(s.pool, id) || Popped(s, id)
  }

  /** As long as no worker was joined, worker `i` serves slot `i`. */
  ghost predicate Original(s: System) {
    s.pool.joined == {} ==>
      && (forall i :: 0 <= i < |s.pool.slots| ==> s.pool.slots[i].id == i)
      && |s.pool.slots| <= s.pool.nextWorker
      && (|s.pool.slots| < s.pool.nextWorker ==> exists t :: t in s.tasks && Joining(s.tasks[t]))
  }

  ghost predicate TaskOriginal(task: Task) {
    && (BookingOf(task.pc).Some? ==> BookingOf(task.pc).value.0.worker == BookingOf(task.pc).value.0.slot)
    && (task.pc.Done? && task.pc.outcome.Created? ==>
          task.pc.outcome.worker == task.pc.outcome.booking.slot == task.pc.outcome.booking.worker)
  }

  ghost predicate TasksOriginal(s: System) {
    s.pool.joined == {} ==> forall t :: t in s.tasks ==> TaskOriginal(s.tasks[t])
  }

  ghost predicate HistoryOk(s: System) {
    && CooldownOk(s.pool)
    && CountOk(s.pool)
    && Accounted(s)
    && Original(s)
    && TasksOriginal(s)
  }

  // ---------- Every step ----------

  ghost predicate SameIds(p: Shared, p': Shared) {
    && p'.joined == p.joined && p'.nextWorker == p.nextWorker && |p'.slots| == |p.slots|
    && forall i :: 0 <= i < |p.slots| ==> p'.slots[i].id == p.slots[i].id
  }

  ghost predicate SamePopped(s: System, s': System) {
    forall t :: t in s.tasks && Joining(s.tasks[t]) ==>
      t in s'.tasks && Joining(s'.tasks[t]) && s'.tasks[t].pc.popped.id == s.tasks[t].pc.popped.id
  }

  lemma IdsStay(s: System, a: Action)
    requires Enabled(s, a) && !a.Decide?
    ensures SameIds(s.pool, Step(s, a).pool)
  {
  }

  /** A task that awaits a worker only steps with that worker. */
  lemma JoinGoesOn(s: System, a: Action, t: nat)
    requires Enabled(s, a) && !a.Decide? && ActingTask(a) == Some(t) && t in s.tasks && Joining(s.tasks[t])
    requires CallOk(s.pool, s.tasks[t]) && JobFits(s.tasks[t].job, s.tasks[t].pc)
    ensures a.PoppedStep? && t in Step(s, a).tasks && Joining(Step(s, a).tasks[t])
    ensures Step(s, a).tasks[t].pc.popped.id == s.tasks[t].pc.popped.id
  {
    hide TaskOk, StatusOk, AnswerOk;
  }

  lemma PoppedStay(s: System, a: Action)
    requires TasksOk(s) && Enabled(s, a) && !a.Decide?
    ensures SamePopped(s, Step(s, a))
  {
    hide Step, CallOk, GuardOk, BookingOk, TargetOk, AllocationOk, PoolWorkOk;
    forall t | t in s.tasks && Joining(s.tasks[t])
      ensures t in Step(s, a).tasks && Joining(Step(s, a).tasks[t]) && Step(s, a).tasks[t].pc.popped.id == s.tasks[t].pc.popped.id
    {
      assert TaskOk(s.pool, s.tasks[t]);
      if ActingTask(a) == Some(t) {
        JoinGoesOn(s, a, t);
      } else {
        TasksRemain(s, a, t);
        OnlyTheActorMoves(s, a, t);
      }
    }
  }

  lemma MoveKeepsCooldown(p: Shared, task: Task, o: Oracle)
    requires CooldownOk(p) && TaskOk(p, task) && CanDecide(p, task)
    ensures CooldownOk(Moved(p, Plan(p, task, o).1))
  {
  }

  lemma OthersKeepCooldown(s: System, a: Action)
    requires Enabled(s, a) && !a.Decide?
    ensures var p, p' := s.pool, Step(s, a).pool;
            && p'.config == p.config && p'.scaleDowns == p.scaleDowns && p'.lastScaleDown == p.lastScaleDown
            && p.clock <= p'.clock
  {
  }

  lemma StepKeepsCooldown(s: System, a: Action)
    requires Inv(s) && CooldownOk(s.pool) && Enabled(s, a)
    ensures CooldownOk(Step(s, a).pool)
  {
    if a.Decide? {
      MoveKeepsCooldown(s.pool, s.tasks[a.task], a.oracle);
    } else {
      OthersKeepCooldown(s, a);
    }
  }

  lemma SendCounts(s: System, t: nat)
    requires CountOk(s.pool) && Enabled(s, Send(t))
    ensures CountOk(Step(s, Send(t)).pool)
  {
    var request := RequestAt(s.tasks[t], |s.pool.slots|).value;
    if request.0 < |s.pool.slots| {
      PostCounts(s.pool, request.0, request.1);
    }
  }

  /** Before shutdown only a slot without a name is popped. */
  lemma PoppedIsUnnamed(p: Shared, task: Task, o: Oracle)
    requires TaskOk(p, task) && CanDecide(p, task)
    ensures Plan(p, task, o).1.Pop? && !p.shutdown ==> NameOf(p.slots[|p.slots| - 1]).None?
  {
    hide CallOk, GuardOk, BookingOk, TargetOk, AllocationOk;
  }

  lemma DecisionCounts(s: System, t: nat, o: Oracle)
    requires Inv(s) && CountOk(s.pool) && Enabled(s, Decide(t, o))
    ensures CountOk(Step(s, Decide(t, o)).pool)
  {
    hide Step, TaskOk;
    DecisionIs(s, t, o);
    PoppedIsUnnamed(s.pool, s.tasks[t], o);
    MoveDecided(s.pool, s.tasks[t], o);
    MoveCounts(s.pool, Plan(s.pool, s.tasks[t], o).1);
  }

  lemma OthersCount(s: System, a: Action)
    requires CountOk(s.pool) && Enabled(s, a) && !a.WorkerStep? && !a.Observe? && !a.Send? && !a.Decide?
    ensures CountOk(Step(s, a).pool)
  {
    assert Step(s, a).pool.slots == s.pool.slots;
  }

  lemma StepKeepsCounts(s: System, a: Action)
    requires Inv(s) && CountOk(s.pool) && Enabled(s, a)
    ensures CountOk(Step(s, a).pool)
  {
    match a {
      case WorkerStep(i, event) => WorkerStepCounts(s.pool, i, event);
      case Observe(i) => PostCounts(s.pool, i, GetVmStatus);
      case Send(t) => SendCounts(s, t);
      case Decide(t, o) => DecisionCounts(s, t, o);
      case _ => OthersCount(s, a);
    }
  }

  lemma AccountedFrame(s: System, s': System)
    requires Accounted(s) && SameIds(s.pool, s'.pool) && SamePopped(s, s')
    ensures Accounted(s')
  {
    forall id: nat | id < s'.pool.nextWorker ensures id in s'.pool.joined || InPool(s'.pool, id) || Popped(s', id) {
      if InPool(s.pool, id) {
        var i :| 0 <= i < |s.pool.slots| && s.pool.slots[i].id == id;
        assert s'.pool.slots[i].id == id;
      } else if Popped(s, id) {
        var t :| t in s.tasks && Joining(s.tasks[t]) && s.tasks[t].pc.popped.id == id;
        assert s'.tasks[t].pc.popped.id == id;
      }
    }
  }

  lemma MoveIsAccounted(s: System, t: nat, o: Oracle)
    requires Accounted(s) && Enabled(s, Decide(t, o))
    ensures Accounted(Step(s, Decide(t, o)))
  {
    var s' := Step(s, Decide(t, o));
    var p, p' := s.pool, s'.pool;
    forall id: nat | id < p'.nextWorker ensures id in p'.joined || InPool(p', id) || Popped(s', id) {
      if InPool(p, id) {
        PoolWorkerMoves(s, t, o, id);
      } else if Popped(s, id) {
        PoppedWorkerMoves(s, t, o, id);
      } else if id == p.nextWorker {
        assert p'.slots[|p.slots|].id == id;
      }
    }
  }

  lemma PoolWorkerMoves(s: System, t: nat, o: Oracle, id: nat)
    requires Enabled(s, Decide(t, o)) && InPool(s.pool, id)
    ensures var s' := Step(s, Decide(t, o)); InPool(s'.pool, id) || Popped(s', id)
  {
    var s' := Step(s, Decide(t, o));
    var i :| 0 <= i < |s.pool.slots| && s.pool.slots[i].id == id;
    if i < |s'.pool.slots| {
      assert s'.pool.slots[i].id == id;
    } else {
      assert Joining(s'.tasks[t]) && s'.tasks[t].pc.popped.id == id;
    }
  }

  lemma PoppedWorkerMoves(s: System, t: nat, o: Oracle, id: nat)
    requires Enabled(s, Decide(t, o)) && Popped(s, id)
    ensures var s' := Step(s, Decide(t, o)); id in s'.pool.joined || Popped(s', id)
  {
    var s' := Step(s, Decide(t, o));
    var u :| u in s.tasks && Joining(s.tasks[u]) && s.tasks[u].pc.popped.id == id;
    if u != t {
      assert s'.tasks[u] == s.tasks[u];
    }
  }

  lemma StepKeepsAccounted(s: System, a: Action)
    requires Inv(s) && Accounted(s) && Enabled(s, a)
    ensures Accounted(Step(s, a))
  {
    if a.Decide? {
      MoveIsAccounted(s, a.task, a.oracle);
    } else {
      IdsStay(s, a);
      PoppedStay(s, a);
      AccountedFrame(s, Step(s, a));
    }
  }

  /** While a popped worker is being joined, the joining task is the only one in the lock. */
  lemma NobodyMovesDuringJoin(s: System, t: nat, o: Oracle, u: nat)
    requires Exclusive(s) && Enabled(s, Decide(t, o)) && u in s.tasks && Joining(s.tasks[u]) && u != t
    ensures Plan(s.pool, s.tasks[t], o).1.Keep?
  {
    assert GuardOf(s.tasks[u]).WriteGuard?;
    GuardNeverGrows(s.pool, s.tasks[t], o);
  }

  lemma MoveKeepsOriginal(s: System, t: nat, o: Oracle)
    requires Exclusive(s) && Original(s) && Enabled(s, Decide(t, o))
    ensures Original(Step(s, Decide(t, o)))
  {
    var s' := Step(s, Decide(t, o));
    if s'.pool.joined == {} {
      var move := Plan(s.pool, s.tasks[t], o).1;
      if move.Pop? {
        assert Joining(s'.tasks[t]);
      } else if |s.pool.slots| < s.pool.nextWorker {
        var u :| u in s.tasks && Joining(s.tasks[u]);
        assert u != t;
        NobodyMovesDuringJoin(s, t, o, u);
        assert Joining(s'.tasks[u]);
      }
    }
  }

  lemma StepKeepsOriginal(s: System, a: Action)
    requires Inv(s) && Original(s) && Enabled(s, a)
    ensures Original(Step(s, a))
  {
    if a.Decide? {
      MoveKeepsOriginal(s, a.task, a.oracle);
    } else {
      IdsStay(s, a);
      PoppedStay(s, a);
      var s' := Step(s, a);
      if s'.pool.joined == {} && |s'.pool.slots| < s'.pool.nextWorker {
        var t :| t in s.tasks && Joining(s.tasks[t]);
        assert Joining(s'.tasks[t]);
      }
    }
  }

  lemma StatusKeepsOriginal(p: Shared, task: Task, worker: nat, st: SlotStatus)
    requires TaskOriginal(task) && TaskOk(p, task) && task.call.Some?
    requires StatusOk(p, task, task.call.value.slot, worker, st) && worker == task.call.value.slot
    ensures TaskOriginal(task.(pc := OnStatus(task, worker, st), call := None))
  {
  }

  lemma ReceiveKeepsOriginal(s: System, t: nat)
    requires Original(s) && s.pool.joined == {} && Enabled(s, Receive(t)) && TaskOk(s.pool, s.tasks[t]) && TaskOriginal(s.tasks[t])
    ensures TaskOriginal(Step(s, Receive(t)).tasks[t])
  {
    var answer := s.pool.answers[s.tasks[t].call.value.ticket];
    if answer.Answer? && answer.reply.Ok? {
      StatusKeepsOriginal(s.pool, s.tasks[t], answer.worker, answer.reply.value);
    }
  }

  lemma DecideKeepsOriginal(p: Shared, task: Task, o: Oracle)
    requires TaskOriginal(task) && CanDecide(p, task)
    ensures TaskOriginal(task.(pc := Plan(p, task, o).0))
  {
  }

  lemma EntryKeepsOriginal(task: Task, since: nat)
    requires TaskOriginal(task) && Entry(task).Some?
    ensures TaskOriginal(task.(pc := Entry(task).value.1, since := since))
  {
  }

  lemma AcquireKeepsOriginal(s: System, t: nat)
    requires Enabled(s, Acquire(t)) && TaskOriginal(s.tasks[t])
    ensures TaskOriginal(Step(s, Acquire(t)).tasks[t])
  {
    EntryKeepsOriginal(s.tasks[t], s.pool.nextTicket);
  }

  lemma DecisionKeepsOriginal(s: System, t: nat, o: Oracle)
    requires Enabled(s, Decide(t, o)) && TaskOriginal(s.tasks[t])
    ensures TaskOriginal(Step(s, Decide(t, o)).tasks[t])
  {
    DecideKeepsOriginal(s.pool, s.tasks[t], o);
  }

  lemma SendKeepsOriginal(s: System, t: nat)
    requires Enabled(s, Send(t)) && TaskOriginal(s.tasks[t])
    ensures TaskOriginal(Step(s, Send(t)).tasks[t])
  {
  }

  lemma JoinedOnlyGrows(s: System, a: Action)
    requires Enabled(s, a)
    ensures s.pool.joined <= Step(s, a).pool.joined
  {
  }

  lemma QuietStepsStayOriginal(s: System, a: Action, t: nat)
    requires Enabled(s, a) && ActingTask(a) == Some(t) && (a.Arrive? || a.Cancel? || a.PoppedStep?)
    ensures TaskOriginal(Step(s, a).tasks[t])
  {
  }

  lemma ActorStaysOriginal(s: System, a: Action, t: nat)
    requires Original(s) && s.pool.joined == {} && Enabled(s, a) && ActingTask(a) == Some(t)
    requires t in s.tasks ==> TaskOk(s.pool, s.tasks[t]) && TaskOriginal(s.tasks[t])
    ensures TaskOriginal(Step(s, a).tasks[t])
  {
    hide Step, TaskOk, Original, TaskOriginal;
    match a {
      case Acquire(_) => AcquireKeepsOriginal(s, t);
      case Send(_) => SendKeepsOriginal(s, t);
      case Receive(_) => ReceiveKeepsOriginal(s, t);
      case Decide(_, o) => DecisionKeepsOriginal(s, t, o);
      case _ => QuietStepsStayOriginal(s, a, t);
    }
  }

  lemma StepKeepsTasksOriginal(s: System, a: Action)
    requires TasksOk(s) && Original(s) && TasksOriginal(s) && Enabled(s, a)
    ensures TasksOriginal(Step(s, a))
  {
    JoinedOnlyGrows(s, a);
    if s.pool.joined == {} {
      var tasks := Step(s, a).tasks;
      forall u | u in tasks ensures TaskOriginal(tasks[u]) {
        if ActingTask(a) == Some(u) {
          ActorStaysOriginal(s, a, u);
        } else {
          OnlyTheActorMoves(s, a, u);
        }
      }
    }
  }

  lemma StepKeepsHistory(s: System, a: Action)
    requires Inv(s) && HistoryOk(s) && Enabled(s, a)
    ensures HistoryOk(Step(s, a))
  {
    StepKeepsCooldown(s, a);
    StepKeepsCounts(s, a);
    StepKeepsAccounted(s, a);
    StepKeepsOriginal(s, a);
    StepKeepsTasksOriginal(s, a);
  }

  lemma InitialHistory(config: Config)
    ensures HistoryOk(InitialSystem(config))
  {
    var s := InitialSystem(config);
    NothingNamed(s.pool.slots);
    forall id: nat | id < s.pool.nextWorker ensures InPool(s.pool, id) {
      assert s.pool.slots[id].id == id;
    }
  }
}
