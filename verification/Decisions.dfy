/** The decisions of the tasks, and what they do to the pool, keep the invariant. */
module Decisions {
  import opened Slots
  import opened Protocol
  import opened ProtocolInvariant
  import opened WorkerSteps
  import opened TaskSteps
  import opened PoolMoves

  // ---------- Decisions that leave the pool alone ----------

  lemma NameIsFree(p: Shared, task: Task)
    requires TaskOk(p, task) && task.pc.FindByName? && task.job.Create?
    requires |task.pc.seen| == |p.slots| && FirstNamed(task.pc.seen, task.job.name).None?
    ensures ClearOf(p, task.since, task.job.name)
  {
    forall i | 0 <= i < |p.slots| ensures NameOf(p.slots[i]) != Some(task.job.name) {
      assert Trails(task.pc.seen[i], p.slots[i].rt.status);
    }
  }

  lemma LookupDecided(p: Shared, task: Task, o: Oracle)
    requires TaskOk(p, task) && CanDecide(p, task) && task.pc.FindByName?
    ensures TaskOk(p, task.(pc := Plan(p, task, o).0))
  {
    hide AnswerOk, BookingOk, NoneReserves, SoleName, Flushed;
    var next := task.(pc := Plan(p, task, o).0);
    var found := FirstNamed(task.pc.seen, task.job.name);
    if task.job.Create? && found.None? {
      NameIsFree(p, task);
    } else if GuardOf(next).NoGuard? {
      IdleTaskIsOk(p, next);
    } else {
      assert Trails(task.pc.seen[found.value], p.slots[found.value].rt.status);
      assert TargetOk(p, next.job, next.since, task.pc.seen[found.value]);
    }
  }

  /** What a task needs to know that lets go of the lock, or stops. */
  lemma StoppedFits(p: Shared, task: Task, o: Oracle)
    requires PcOk(p, task) && CanDecide(p, task)
    requires GuardOf(task.(pc := Plan(p, task, o).0)).NoGuard? && !Plan(p, task, o).1.Grow? && !Plan(p, task, o).1.Pop?
    ensures var next := Plan(p, task, o).0;
            && JobFits(task.job, next)
            && (BookingOf(next).Some? ==> BookingOk(p, task.job, BookingOf(next).value.0, BookingOf(next).value.1))
  {
    hide AllocationOk, PoolWorkOk;
  }

  lemma StoppedDecided(p: Shared, task: Task, o: Oracle)
    requires TaskOk(p, task) && CanDecide(p, task)
    requires GuardOf(task.(pc := Plan(p, task, o).0)).NoGuard? && !Plan(p, task, o).1.Grow? && !Plan(p, task, o).1.Pop?
    ensures TaskOk(p, task.(pc := Plan(p, task, o).0))
  {
    StoppedFits(p, task, o);
    hide AnswerOk, PcOk, NoneReserves;
    IdleTaskIsOk(p, task.(pc := Plan(p, task, o).0));
  }

  lemma TargetDecided(p: Shared, task: Task, o: Oracle)
    requires TaskOk(p, task) && CanDecide(p, task) && (task.pc.PutShutdown? || task.pc.PutDelete?)
    ensures TaskOk(p, task.(pc := Plan(p, task, o).0))
  {
    var next := task.(pc := Plan(p, task, o).0);
    if GuardOf(next).NoGuard? {
      StoppedDecided(p, task, o);
    } else {
      assert TargetOf(next.pc) == TargetOf(task.pc);
    }
  }

  lemma AllocationDecided(p: Shared, task: Task, o: Oracle)
    requires TaskOk(p, task) && CanDecide(p, task) && task.pc.FindEmpty? && Plan(p, task, o).1.Keep?
    ensures TaskOk(p, task.(pc := Plan(p, task, o).0))
  {
    if GuardOf(task.(pc := Plan(p, task, o).0)).NoGuard? {
      StoppedDecided(p, task, o);
    }
  }

  lemma BootDecided(p: Shared, task: Task, o: Oracle)
    requires TaskOk(p, task) && CanDecide(p, task) && (task.pc.ReadySeen? || task.pc.PutCreate? || task.pc.PutBoot?)
    ensures TaskOk(p, task.(pc := Plan(p, task, o).0))
  {
    if GuardOf(task.(pc := Plan(p, task, o).0)).NoGuard? {
      StoppedDecided(p, task, o);
    }
  }

  /** Beyond the minimal size and out of the cooldown the autoscaler asks the tail. */
  lemma CheckDecided(p: Shared, task: Task, o: Oracle)
    requires TaskOk(p, task) && CanDecide(p, task) && task.pc.CheckPool?
    ensures TaskOk(p, task.(pc := Plan(p, task, o).0))
  {
    if Plan(p, task, o).0.Start? {
      StoppedDecided(p, task, o);
    }
  }

  lemma KeepDecided(p: Shared, task: Task, o: Oracle)
    requires TaskOk(p, task) && CanDecide(p, task) && Plan(p, task, o).1.Keep?
    ensures TaskOk(p, task.(pc := Plan(p, task, o).0))
  {
    hide TaskOk;
    match task.pc {
      case FindByName(_) => LookupDecided(p, task, o);
      case FindEmpty(_) => AllocationDecided(p, task, o);
      case ReadySeen(_, _, _) => BootDecided(p, task, o);
      case PutCreate(_, _) => BootDecided(p, task, o);
      case PutBoot(_, _) => BootDecided(p, task, o);
      case PutShutdown(_) => TargetDecided(p, task, o);
      case PutDelete(_) => TargetDecided(p, task, o);
      case PutAction(_) => StoppedDecided(p, task, o);
      case CheckPool => CheckDecided(p, task, o);
      case DrainPool => StoppedDecided(p, task, o);
    }
  }

  lemma GuardNeverGrows(p: Shared, task: Task, o: Oracle)
    requires CanDecide(p, task)
    ensures var next := task.(pc := Plan(p, task, o).0);
            GuardOf(next) == GuardOf(task) || GuardOf(next).NoGuard?
    ensures !Plan(p, task, o).1.Keep? ==> GuardOf(task).WriteGuard?
  {
  }

  // ---------- Moving the pool ----------

  ghost predicate MayMove(p: Shared, move: Move) {
    match move
    case Grow => |p.slots| < p.config.max
    case Pop => |p.slots| > 0 && (p.shutdown || |p.slots| > p.config.min)
    case _ => true
  }

  lemma MoveKeepsSlots(p: Shared, move: Move)
    requires SlotsOk(p) && MayMove(p, move)
    ensures SlotsOk(Moved(p, move))
  {
    var p' := Moved(p, move);
    forall i | 0 <= i < |p'.slots| ensures WorkerOk(p', i, p'.slots[i]) {
      if i < |p.slots| {
        assert WorkerOk(p, i, p.slots[i]);
      }
    }
  }

  lemma GrowKeepsSingle(slots: seq<Worker>, w: Worker)
    requires SingleReserve(slots) && w.mailbox == []
    ensures SingleReserve(slots + [w])
  {
  }

  lemma GrowKeepsFresh(slots: seq<Worker>, w: Worker)
    requires FreshReserves(slots) && w.mailbox == [] && NameOf(w).None?
    ensures FreshReserves(slots + [w])
  {
  }

  lemma GrowKeepsNames(slots: seq<Worker>, w: Worker)
    requires DistinctNames(slots) && FreshReserves(slots) && SingleReserve(slots)
    requires w.mailbox == [] && NameOf(w).None?
    ensures DistinctNames(slots + [w]) && FreshReserves(slots + [w]) && SingleReserve(slots + [w])
  {
    hide FreshReserves, SingleReserve;
    GrowKeepsSingle(slots, w);
    GrowKeepsFresh(slots, w);
  }

  lemma PopKeepsNames(slots: seq<Worker>)
    requires |slots| > 0 && DistinctNames(slots) && FreshReserves(slots) && SingleReserve(slots)
    ensures var rest := slots[..|slots| - 1]; DistinctNames(rest) && FreshReserves(rest) && SingleReserve(rest)
  {
  }

  lemma MoveKeepsPool(p: Shared, move: Move)
    requires PoolOk(p) && MayMove(p, move)
    ensures PoolOk(Moved(p, move))
  {
    MoveKeepsSlots(p, move);
    hide SlotsOk, WorkerOk, DistinctNames, FreshReserves, SingleReserve;
    if move.Grow? {
      GrowKeepsNames(p.slots, FreshWorker(p.nextWorker, |p.slots|));
    } else if move.Pop? {
      PopKeepsNames(p.slots);
    }
  }

  /** Tasks outside the lock only remember their booking; a new worker is never the booked one. */
  lemma MoveKeepsIdle(p: Shared, move: Move, task: Task)
    requires MayMove(p, move) && TaskOk(p, task) && GuardOf(task).NoGuard?
    ensures TaskOk(Moved(p, move), task)
  {
    assert task.call.None?;
    IdleTaskIsOk(Moved(p, move), task);
  }

  lemma GrowDecided(p: Shared, task: Task)
    requires TaskOk(p, task) && task.pc.FindEmpty? && task.call.None?
    ensures TaskOk(Moved(p, Grow), task.(pc := FindEmpty([])))
  {
  }

  lemma PopDecided(p: Shared, task: Task, pc: Pc)
    requires SlotsOk(p) && TaskOk(p, task) && task.call.None? && |p.slots| > 0
    requires (task.pc.PopTail? && pc == JoinTail(p.slots[|p.slots| - 1])) || (task.pc.DrainPool? && pc == JoinDrained(p.slots[|p.slots| - 1]))
    ensures TaskOk(Moved(p, Pop), task.(pc := pc))
  {
    var p' := Moved(p, Pop);
    var w := p.slots[|p.slots| - 1];
    assert WorkerOk(p, |p.slots| - 1, w);
    assert WorkerOk(p', |p'.slots|, w);
    if task.pc.PopTail? {
      assert Vacant(w);
    }
  }

  lemma MoveDecided(p: Shared, task: Task, o: Oracle)
    requires SlotsOk(p) && TaskOk(p, task) && CanDecide(p, task)
    ensures MayMove(p, Plan(p, task, o).1)
    ensures TaskOk(Moved(p, Plan(p, task, o).1), task.(pc := Plan(p, task, o).0))
  {
    PlanMayMove(p, task, o);
    hide TaskOk, SlotsOk, MayMove;
    var plan := Plan(p, task, o);
    match plan.1 {
      case Keep => KeepDecided(p, task, o);
      case Grow => GrowDecided(p, task);
      case Pop => PopDecided(p, task, plan.0);
      case Join(_, _) => JoinDecided(p, task, o);
      case RaiseShutdown => RaiseDecided(p, task);
    }
  }

  lemma PlanMayMove(p: Shared, task: Task, o: Oracle)
    requires TaskOk(p, task) && CanDecide(p, task)
    ensures MayMove(p, Plan(p, task, o).1)
  {
    hide CallOk, GuardOk, BookingOk, TargetOk, AllocationOk;
  }

  lemma RaiseDecided(p: Shared, task: Task)
    requires TaskOk(p, task) && task.pc.Broadcast? && task.call.None?
    ensures TaskOk(Moved(p, RaiseShutdown), task.(pc := DrainPool))
  {
  }

  lemma JoinDecided(p: Shared, task: Task, o: Oracle)
    requires TaskOk(p, task) && CanDecide(p, task) && Plan(p, task, o).1.Join?
    ensures TaskOk(Moved(p, Plan(p, task, o).1), task.(pc := Plan(p, task, o).0))
  {
    var next := task.(pc := Plan(p, task, o).0);
    if task.pc.JoinTail? {
      IdleTaskIsOk(Moved(p, Plan(p, task, o).1), next);
    }
  }

  /** What a decision does to its own task and to the pool. */
  lemma DecisionIs(s: System, t: nat, o: Oracle)
    requires Enabled(s, Decide(t, o))
    ensures Step(s, Decide(t, o)).pool == Moved(s.pool, Plan(s.pool, s.tasks[t], o).1)
    ensures Step(s, Decide(t, o)).tasks == s.tasks[t := s.tasks[t].(pc := Plan(s.pool, s.tasks[t], o).0)]
  {
  }

  lemma DecideKeepsTasks(s: System, t: nat, o: Oracle)
    requires PoolOk(s.pool) && Exclusive(s) && TasksOk(s) && Enabled(s, Decide(t, o))
    ensures TasksOk(Step(s, Decide(t, o)))
  {
    hide Step, TaskOk, SlotsOk, UniqueNames, MayMove;
    var task, p := s.tasks[t], s.pool;
    var plan := Plan(p, task, o);
    var s' := Step(s, Decide(t, o));
    DecisionIs(s, t, o);
    MoveDecided(p, task, o);
    GuardNeverGrows(p, task, o);
    forall u | u in s.tasks && u != t ensures TaskOk(s'.pool, s.tasks[u]) {
      if !plan.1.Keep? {
        MoveKeepsIdle(p, plan.1, s.tasks[u]);
      }
    }
  }

  lemma DecideKeepsInv(s: System, t: nat, o: Oracle)
    requires Inv(s) && Enabled(s, Decide(t, o))
    ensures Inv(Step(s, Decide(t, o)))
  {
    hide Step, TaskOk, SlotsOk, UniqueNames, MayMove;
    DecisionIs(s, t, o);
    PlanMayMove(s.pool, s.tasks[t], o);
    GuardNeverGrows(s.pool, s.tasks[t], o);
    MoveKeepsPool(s.pool, Plan(s.pool, s.tasks[t], o).1);
    DecideKeepsTasks(s, t, o);
    Assemble(Step(s, Decide(t, o)));
  }

  // ---------- Every step ----------

  lemma StepKeepsInv(s: System, a: Action)
    requires Inv(s) && Enabled(s, a)
    ensures Inv(Step(s, a))
  {
    hide Inv, Step;
    match a {
      case Arrive(t, job) => ArriveKeepsInv(s, t, job);
      case Acquire(t) => AcquireKeepsInv(s, t);
      case Send(t) => SendKeepsInv(s, t);
      case Receive(t) => ReceiveKeepsInv(s, t);
      case Decide(t, o) => DecideKeepsInv(s, t, o);
      case Cancel(t) => CancelKeepsInv(s, t);
      case Observe(i) => ObserveKeepsInv(s, i);
      case WorkerStep(i, event) => WorkerStepKeepsInv(s, i, event);
      case PoppedStep(t, event) => PoppedStepKeepsInv(s, t, event);
      case Pass(time) => PassKeepsInv(s, time);
    }
  }

  lemma InitialNames(config: Config)
    ensures UniqueNames(InitialSystem(config).pool)
  {
  }

  lemma InitialInv(config: Config)
    requires config.min <= config.max
    ensures Inv(InitialSystem(config))
  {
    InitialNames(config);
    hide UniqueNames;
    var p := InitialSystem(config).pool;
    forall i | 0 <= i < |p.slots| ensures WorkerOk(p, i, p.slots[i]) {
      assert p.slots[i] == FreshWorker(i, i);
    }
  }
}
