/** What holds in every run of the pool. */
module PoolTheorems {
  import opened Slots
  import opened SlotSteps
  import opened Decimal
  import opened Protocol
  import opened ProtocolInvariant
  import opened Decisions
  import opened PoolMoves
  import opened PoolHistory

  // ---------- Runs ----------

  /** A run: any interleaving of enabled steps, from a pool as the daemon starts it. */
  ghost predicate IsRun(config: Config, states: seq<System>, actions: seq<Action>) {
    && config.min <= config.max
    && |states| == |actions| + 1
    && states[0] == InitialSystem(config)
    && forall k :: 0 <= k < |actions| ==> Enabled(states[k], actions[k]) && states[k + 1] == Step(states[k], actions[k])
  }

  lemma {:induction false} RunsKeepInvariants(config: Config, states: seq<System>, actions: seq<Action>, k: nat)
    requires IsRun(config, states, actions) && k < |states|
    ensures Inv(states[k]) && HistoryOk(states[k]) && states[k].pool.config == config
  {
    hide Step, Inv, HistoryOk;
    if k == 0 {
      InitialInv(config);
      InitialHistory(config);
    } else {
      RunsKeepInvariants(config, states, actions, k - 1);
      StepKeepsInv(states[k - 1], actions[k - 1]);
      StepKeepsHistory(states[k - 1], actions[k - 1]);
      ConfigStays(states[k - 1], actions[k - 1]);
    }
  }

  lemma ConfigStays(s: System, a: Action)
    requires Enabled(s, a)
    ensures Step(s, a).pool.config == s.pool.config
  {
  }

  // ---------- Names ----------

  /**
   No two slots ever claim the same VM name, whatever they are doing and whoever was cancelled;
   a slot that carries a name has no reservation queued for it; at most one reservation is in
   flight in the whole pool.
   */
  lemma NamesAreUnique(config: Config, states: seq<System>, actions: seq<Action>, k: nat, i: nat, j: nat, name: string)
    requires IsRun(config, states, actions) && k < |states|
    requires i < |states[k].pool.slots| && j < |states[k].pool.slots|
    requires Claims(states[k].pool.slots[i], name) && Claims(states[k].pool.slots[j], name)
    ensures i == j
    ensures NameOf(states[k].pool.slots[i]) == Some(name) ==>
              forall e :: e in states[k].pool.slots[i].mailbox && e.command.ReserveVm? ==> e.command.name != name
    ensures forall e, f :: e in states[k].pool.slots[i].mailbox && f in states[k].pool.slots[i].mailbox ==>
              e.command.ReserveVm? && f.command.ReserveVm? ==> e == f
  {
    hide Step;
    RunsKeepInvariants(config, states, actions, k);
  }

  // ---------- The pool ----------

  /** Until shutdown the pool keeps its bounds, worker `i` reports slot `i`, and the taps in use are distinct. */
  lemma PoolKeepsItsShape(config: Config, states: seq<System>, actions: seq<Action>, k: nat)
    requires IsRun(config, states, actions) && k < |states|
    ensures var p := states[k].pool;
            && (!p.shutdown ==> config.min <= |p.slots| <= config.max)
            && (forall i :: 0 <= i < |p.slots| ==>
                  && p.slots[i].rt.status.slot == i
                  && |p.slots[i].mailbox| <= CHANNEL_CAPACITY
                  && (NameOf(p.slots[i]).Some? ==> p.slots[i].rt.status.tap == Some(TapName(i))))
            && (forall i, j :: (0 <= i < |p.slots| && 0 <= j < |p.slots| && i != j
                                && NameOf(p.slots[i]).Some? && NameOf(p.slots[j]).Some?) ==>
                  p.slots[i].rt.status.tap != p.slots[j].rt.status.tap)
  {
    hide Step;
    RunsKeepInvariants(config, states, actions, k);
    var p := states[k].pool;
    forall i | 0 <= i < |p.slots|
      ensures p.slots[i].rt.status.slot == i && |p.slots[i].mailbox| <= CHANNEL_CAPACITY
      ensures NameOf(p.slots[i]).Some? ==> p.slots[i].rt.status.tap == Some(TapName(i))
    {
      assert WorkerOk(p, i, p.slots[i]);
    }
    forall i: nat, j: nat | i < |p.slots| && j < |p.slots| && i != j && NameOf(p.slots[i]).Some? && NameOf(p.slots[j]).Some?
      ensures p.slots[i].rt.status.tap != p.slots[j].rt.status.tap
    {
      SlotNamesAreDistinct(i, j);
    }
  }

  /** Until shutdown, the reservations granted minus the VMs ended are the slots that carry a name. */
  lemma ReservationsAreConserved(config: Config, states: seq<System>, actions: seq<Action>, k: nat)
    requires IsRun(config, states, actions) && k < |states| && !states[k].pool.shutdown
    ensures states[k].pool.reserved - states[k].pool.cleared == NamedCount(states[k].pool.slots)
  {
    hide Step;
    RunsKeepInvariants(config, states, actions, k);
  }

  // ---------- Scaling down ----------

  /**
   Scaling down discards no VM: the worker taken out is the last one, carries no identity, and
   has no reservation queued; every other slot stays as it is.
   */
  lemma ScaleDownDiscardsNothing(config: Config, states: seq<System>, actions: seq<Action>, k: nat)
    requires IsRun(config, states, actions) && k < |actions|
    requires actions[k].Decide? && states[k].tasks[actions[k].task].pc.PopTail?
    ensures var p, p' := states[k].pool, states[k + 1].pool;
            && |p.slots| > config.min
            && p'.slots == p.slots[..|p.slots| - 1]
            && var popped := p.slots[|p.slots| - 1];
               && states[k + 1].tasks[actions[k].task].pc == JoinTail(popped)
               && popped.rt.status.name.None? && popped.rt.status.mac.None? && popped.rt.status.tap.None?
               && forall e :: e in popped.mailbox ==> !e.command.ReserveVm?
  {
    hide Step, TaskOk, UniqueNames;
    RunsKeepInvariants(config, states, actions, k);
    var s, t := states[k], actions[k].task;
    DecisionIs(s, t, actions[k].oracle);
    TailIsVacant(s.pool, s.tasks[t]);
  }

  /** Whoever is about to pop the tail knows that it has no VM and gets none. */
  lemma TailIsVacant(p: Shared, task: Task)
    requires SlotsOk(p) && TaskOk(p, task) && task.pc.PopTail?
    ensures |p.slots| > p.config.min
    ensures var popped := p.slots[|p.slots| - 1].rt.status;
            popped.name.None? && popped.mac.None? && popped.tap.None?
    ensures forall e :: e in p.slots[|p.slots| - 1].mailbox ==> !e.command.ReserveVm?
  {
    hide CallOk, BookingOk, TargetOk, ScanOk, ClearOf;
    assert WorkerOk(p, |p.slots| - 1, p.slots[|p.slots| - 1]);
    assert Flushed(p.slots[|p.slots| - 1], task.since);
  }

  /** The worker being joined stays without a VM, so none is lost when the tick returns. */
  lemma JoinedWorkerStaysVacant(config: Config, states: seq<System>, actions: seq<Action>, k: nat, t: nat)
    requires IsRun(config, states, actions) && k < |states|
    requires t in states[k].tasks && states[k].tasks[t].pc.JoinTail?
    ensures var popped := states[k].tasks[t].pc.popped;
            && popped.rt.status.name.None? && popped.rt.status.mac.None? && popped.rt.status.tap.None?
            && forall e :: e in popped.mailbox ==> !e.command.ReserveVm?
  {
    hide Step;
    RunsKeepInvariants(config, states, actions, k);
    assert TaskOk(states[k].pool, states[k].tasks[t]);
  }

  /**
   The scale-down awaits the worker while it still owns the sending half of its channel, and
   holds the write lock that shutdown would need. So it returns exactly when the worker task
   failed: a worker that behaves is awaited for ever.
   */
  lemma ScaleDownReturnsIffWorkerFailed(config: Config, states: seq<System>, actions: seq<Action>, k: nat, t: nat, o: Oracle)
    requires IsRun(config, states, actions) && k < |states| && !states[k].pool.shutdown
    requires t in states[k].tasks && states[k].tasks[t].pc.JoinTail?
    ensures Enabled(states[k], Decide(t, o)) <==> states[k].tasks[t].pc.popped.task.Died?
  {
    hide Step;
    RunsKeepInvariants(config, states, actions, k);
    var s := states[k];
    assert TaskOk(s.pool, s.tasks[t]);
    assert WorkerOk(s.pool, |s.pool.slots|, s.tasks[t].pc.popped);
  }

  lemma OthersKeepShutdown(s: System, a: Action, t: nat)
    requires Exclusive(s) && Enabled(s, a) && t in s.tasks && GuardOf(s.tasks[t]).WriteGuard? && ActingTask(a) != Some(t)
    ensures Step(s, a).pool.shutdown == s.pool.shutdown
  {
    if a.Decide? {
      GuardNeverGrows(s.pool, s.tasks[a.task], a.oracle);
    }
  }

  lemma OwnStepStaysStuck(s: System, a: Action, t: nat)
    requires PoolOk(s.pool) && Enabled(s, a) && !s.pool.shutdown && ActingTask(a) == Some(t) && a != PoppedStep(t, Die)
    requires t in s.tasks && TaskOk(s.pool, s.tasks[t]) && s.tasks[t].pc.JoinTail? && s.tasks[t].pc.popped.task.Running?
    ensures !Step(s, a).pool.shutdown
    ensures t in Step(s, a).tasks && Step(s, a).tasks[t].pc.JoinTail? && Step(s, a).tasks[t].pc.popped.task.Running?
  {
    assert a.PoppedStep?;
    assert WorkerOk(s.pool, |s.pool.slots|, s.tasks[t].pc.popped);
  }

  lemma JoinStaysStuck(s: System, a: Action, t: nat)
    requires Inv(s) && Enabled(s, a) && !s.pool.shutdown
    requires t in s.tasks && s.tasks[t].pc.JoinTail? && s.tasks[t].pc.popped.task.Running?
    requires a != PoppedStep(t, Die)
    ensures !Step(s, a).pool.shutdown
    ensures t in Step(s, a).tasks && Step(s, a).tasks[t].pc.JoinTail? && Step(s, a).tasks[t].pc.popped.task.Running?
  {
    if ActingTask(a) == Some(t) {
      OwnStepStaysStuck(s, a, t);
    } else {
      OthersKeepShutdown(s, a, t);
      assert t in Step(s, a).tasks;
      OnlyTheActorMoves(s, a, t);
    }
  }

  lemma {:induction false} JoinStaysStuckForEver(config: Config, states: seq<System>, actions: seq<Action>, k: nat, m: nat, t: nat)
    requires IsRun(config, states, actions) && k <= m < |states| && !states[k].pool.shutdown
    requires t in states[k].tasks && states[k].tasks[t].pc.JoinTail? && states[k].tasks[t].pc.popped.task.Running?
    requires forall n :: k <= n < m ==> actions[n] != PoppedStep(t, Die)
    ensures !states[m].pool.shutdown
    ensures t in states[m].tasks && states[m].tasks[t].pc.JoinTail? && states[m].tasks[t].pc.popped.task.Running?
    decreases m
  {
    hide Step;
    if m > k {
      JoinStaysStuckForEver(config, states, actions, k, m - 1, t);
      RunsKeepInvariants(config, states, actions, m - 1);
      JoinStaysStuck(states[m - 1], actions[m - 1], t);
    }
  }

  lemma WriterKeepsOthersOut(s: System, t: nat, u: nat)
    requires Exclusive(s) && t in s.tasks && GuardOf(s.tasks[t]).WriteGuard? && u in s.tasks && u != t
    ensures GuardOf(s.tasks[u]).NoGuard? && !Enabled(s, Acquire(u))
  {
  }

  /**
   As long as its worker does not fail, a scale-down that has begun to wait still waits at every
   later moment, and meanwhile nobody else gets the lock: no create, delete, proxy or shutdown.
   */
  lemma ScaleDownBlocksThePool(config: Config, states: seq<System>, actions: seq<Action>, k: nat, m: nat, t: nat, u: nat)
    requires IsRun(config, states, actions) && k <= m < |states| && !states[k].pool.shutdown
    requires t in states[k].tasks && states[k].tasks[t].pc.JoinTail? && states[k].tasks[t].pc.popped.task.Running?
    requires forall n :: k <= n < m ==> actions[n] != PoppedStep(t, Die)
    requires u in states[m].tasks && u != t
    ensures t in states[m].tasks && states[m].tasks[t].pc.JoinTail? && !states[m].pool.shutdown
    ensures GuardOf(states[m].tasks[u]).NoGuard? && !Enabled(states[m], Acquire(u))
  {
    hide Step;
    RunsKeepInvariants(config, states, actions, m);
    JoinStaysStuckForEver(config, states, actions, k, m, t);
    WriterKeepsOthersOut(states[m], t, u);
  }

  lemma {:induction false} SpacedSpan(times: seq<nat>, gap: nat, i: nat, j: nat)
    requires Spaced(times, gap) && i <= j < |times|
    ensures times[i] + (j - i) * gap <= times[j]
    ensures times[i] <= times[j]
  {
    if i < j {
      SpacedSpan(times, gap, i, j - 1);
      assert (j - i) * gap == (j - 1 - i) * gap + gap;
    }
  }

  /** Two scale-downs of a run are at least the cooldown apart. */
  lemma ScaleDownsAreSpaced(config: Config, states: seq<System>, actions: seq<Action>, k: nat, i: nat, j: nat)
    requires IsRun(config, states, actions) && k < |states| && i <= j < |states[k].pool.scaleDowns|
    ensures var times := states[k].pool.scaleDowns;
            times[i] + (j - i) * config.cooldown <= times[j] <= states[k].pool.clock
  {
    RunsKeepInvariants(config, states, actions, k);
    var times := states[k].pool.scaleDowns;
    SpacedSpan(times, config.cooldown, i, j);
    SpacedSpan(times, config.cooldown, j, |times| - 1);
  }

  lemma ProductsGrow(a: nat, b: nat, c: nat)
    requires a <= b
    ensures a * c <= b * c
  {
  }

  lemma QuotientBound(n: nat, c: nat, length: nat)
    requires c > 0 && n * c <= length
    ensures n <= length / c
  {
    if n > length / c {
      ProductsGrow(length / c + 1, n, c);
      assert false;
    }
  }

  /** Any window of the given length holds at most length / cooldown + 1 scale-downs. */
  lemma ScaleDownsPerWindow(config: Config, states: seq<System>, actions: seq<Action>, k: nat, from: nat, length: nat, i: nat, j: nat)
    requires IsRun(config, states, actions) && k < |states| && config.cooldown > 0
    requires i <= j < |states[k].pool.scaleDowns|
    requires from <= states[k].pool.scaleDowns[i] && states[k].pool.scaleDowns[j] <= from + length
    ensures j - i + 1 <= length / config.cooldown + 1
  {
    ScaleDownsAreSpaced(config, states, actions, k, i, j);
    QuotientBound(j - i, config.cooldown, length);
  }

  // ---------- Delete and proxy ----------

  /**
   While a delete or a proxied request is under way, the slot it looked up still runs the VM it
   looked up, in the same generation, or no VM any more: it was never given to another name.
   */
  lemma RequestsReachTheirVm(config: Config, states: seq<System>, actions: seq<Action>, k: nat, t: nat)
    requires IsRun(config, states, actions) && k < |states|
    requires t in states[k].tasks && TargetOf(states[k].tasks[t].pc).Some?
    ensures var task, target := states[k].tasks[t], TargetOf(states[k].tasks[t].pc).value;
            && (task.job.Delete? || task.job.Proxy?)
            && target.name == Some(task.job.name) && target.state.Occupied?
            && target.slot < |states[k].pool.slots|
            && var now := states[k].pool.slots[target.slot].rt.status;
               if now.name.Some? then now.generation == target.generation && now.name == target.name && now.tap == target.tap
               else now.generation > target.generation
  {
    hide Step;
    RunsKeepInvariants(config, states, actions, k);
    assert TaskOk(states[k].pool, states[k].tasks[t]);
  }

  /** A delete that succeeds has freed the generation it looked up by name. */
  lemma DeleteFreesItsTarget(config: Config, states: seq<System>, actions: seq<Action>, k: nat, t: nat)
    requires IsRun(config, states, actions) && k < |states|
    requires t in states[k].tasks && states[k].tasks[t].pc.Done? && states[k].tasks[t].pc.outcome.Deleted?
    ensures var task, outcome := states[k].tasks[t], states[k].tasks[t].pc.outcome;
            && task.job.Delete? && outcome.target.name == Some(task.job.name) && outcome.target.state.Occupied?
            && outcome.after.slot == outcome.target.slot
            && outcome.after.generation == outcome.target.generation + 1 && outcome.after.state.Empty?
  {
    hide Step;
    RunsKeepInvariants(config, states, actions, k);
    assert TaskOk(states[k].pool, states[k].tasks[t]);
  }

  /** When a delete is told that its release succeeded, no slot claims the name any more. */
  lemma DeletedNameIsFree(config: Config, states: seq<System>, actions: seq<Action>, k: nat, i: nat)
    requires IsRun(config, states, actions) && k < |actions| && actions[k].Receive?
    requires states[k + 1].tasks[actions[k].task].pc.Done? && states[k + 1].tasks[actions[k].task].pc.outcome.Deleted?
    requires i < |states[k + 1].pool.slots|
    ensures states[k].tasks[actions[k].task].job.Delete?
    ensures !Claims(states[k + 1].pool.slots[i], states[k].tasks[actions[k].task].job.name)
  {
    hide Step, TaskOk, OnAnswer, PoolOk, Claims;
    RunsKeepInvariants(config, states, actions, k);
    var t := actions[k].task;
    ReceiveIs(states[k], t);
    ReleasedNameIsFree(states[k].pool, states[k].tasks[t], i);
  }

  lemma ReceiveIs(s: System, t: nat)
    requires Enabled(s, Receive(t))
    ensures Step(s, Receive(t)).pool == s.pool
    ensures Step(s, Receive(t)).tasks[t].pc == OnAnswer(s.tasks[t], s.pool.answers[s.tasks[t].call.value.ticket])
  {
  }

  lemma ReleasedNameIsFree(p: Shared, task: Task, i: nat)
    requires TaskOk(p, task) && task.call.Some? && task.call.value.ticket in p.answers && i < |p.slots|
    requires var next := OnAnswer(task, p.answers[task.call.value.ticket]); next.Done? && next.outcome.Deleted?
    ensures task.job.Delete? && !Claims(p.slots[i], task.job.name)
  {
    hide GuardOk, Flushed, BookingOk, ScanOk, ClearOf;
    var target := task.pc.target;
    assert AnswerOk(p, task, task.call.value, p.answers[task.call.value.ticket]);
    assert TargetOk(p, task.job, task.since, target);
    assert i == target.slot ==> NameOf(p.slots[i]).None?;
    assert SoleName(p, target.slot, target);
  }

  /**
   A lookup by name scans the slots one at a time while they keep moving, but never sees a name
   twice; and nobody but the slot it was seen at carries that name or is about to get it.
   */
  lemma LookupsSeeNamesOnce(config: Config, states: seq<System>, actions: seq<Action>, k: nat, t: nat, i: nat, j: nat)
    requires IsRun(config, states, actions) && k < |states|
    requires t in states[k].tasks && states[k].tasks[t].pc.FindByName?
    requires i < |states[k].tasks[t].pc.seen| && states[k].tasks[t].pc.seen[i].name.Some? && j != i
    ensures var seen, slots := states[k].tasks[t].pc.seen, states[k].pool.slots;
            && (j < |seen| ==> seen[j].name != seen[i].name)
            && (j < |slots| ==> !Claims(slots[j], seen[i].name.value))
  {
    hide Step;
    RunsKeepInvariants(config, states, actions, k);
    var p, task := states[k].pool, states[k].tasks[t];
    assert TaskOk(p, task);
    assert SoleName(p, i, task.pc.seen[i]);
    assert NamesDiffer(task.pc.seen);
  }

  // ---------- Create ----------

  /**
   A create whose mark was applied by the worker and in the generation it reserved returns the
   VM it asked for, with a process, so the conversion at its end cannot fail.
   */
  lemma CreateReturnsItsVm(config: Config, states: seq<System>, actions: seq<Action>, k: nat, t: nat)
    requires IsRun(config, states, actions) && k < |states|
    requires t in states[k].tasks && states[k].tasks[t].pc.Done? && states[k].tasks[t].pc.outcome.Created?
    requires var outcome := states[k].tasks[t].pc.outcome;
             outcome.worker == outcome.booking.worker && outcome.status.generation == outcome.booking.generation
    ensures var job, outcome := states[k].tasks[t].job, states[k].tasks[t].pc.outcome;
            && job.Create?
            && outcome.status.pid.Some?
            && TryIntoRuntime(outcome.status)
               == Ok(VmRuntime(job.name, job.mac, TapName(outcome.booking.slot), outcome.status.pid.value, outcome.startedAt))
  {
    hide Step;
    RunsKeepInvariants(config, states, actions, k);
    assert TaskOk(states[k].pool, states[k].tasks[t]);
  }

  ghost predicate Fails(a: Action) {
    (a.WorkerStep? || a.PoppedStep?) && a.event.Die?
  }

  ghost predicate NobodyDied(s: System) {
    && (forall i :: 0 <= i < |s.pool.slots| ==> !s.pool.slots[i].task.Died?)
    && (forall t :: t in s.tasks && Joining(s.tasks[t]) ==> !s.tasks[t].pc.popped.task.Died?)
  }

  lemma NobodyDies(s: System, a: Action)
    requires NobodyDied(s) && Enabled(s, a) && !Fails(a)
    ensures NobodyDied(Step(s, a))
  {
    forall i | 0 <= i < |Step(s, a).pool.slots| ensures !Step(s, a).pool.slots[i].task.Died? {
      NobodyDiesInPool(s, a, i);
    }
    forall t | t in Step(s, a).tasks && Joining(Step(s, a).tasks[t]) ensures !Step(s, a).tasks[t].pc.popped.task.Died? {
      NobodyDiesPopped(s, a, t);
    }
    hide Step;
  }

  lemma NobodyDiesInPool(s: System, a: Action, i: nat)
    requires NobodyDied(s) && Enabled(s, a) && !Fails(a) && i < |Step(s, a).pool.slots|
    ensures !Step(s, a).pool.slots[i].task.Died?
  {
  }

  lemma NobodyDiesPopped(s: System, a: Action, t: nat)
    requires NobodyDied(s) && Enabled(s, a) && !Fails(a) && t in Step(s, a).tasks && Joining(Step(s, a).tasks[t])
    ensures !Step(s, a).tasks[t].pc.popped.task.Died?
  {
    if ActingTask(a) != Some(t) {
      OnlyTheActorMoves(s, a, t);
    }
  }

  lemma DecisionsJoinNobody(p: Shared, task: Task, o: Oracle)
    requires TaskOk(p, task) && CanDecide(p, task) && !Moved(p, Plan(p, task, o).1).shutdown
    requires Joining(task) ==> !task.pc.popped.task.Died?
    ensures !p.shutdown && Moved(p, Plan(p, task, o).1).joined == p.joined
  {
  }

  lemma OthersJoinNobody(s: System, a: Action)
    requires Enabled(s, a) && !a.Decide?
    ensures Step(s, a).pool.joined == s.pool.joined && Step(s, a).pool.shutdown == s.pool.shutdown
  {
  }

  lemma NobodyIsJoined(s: System, a: Action)
    requires Inv(s) && NobodyDied(s) && Enabled(s, a) && !Step(s, a).pool.shutdown
    ensures !s.pool.shutdown && Step(s, a).pool.joined == s.pool.joined
  {
    if a.Decide? {
      DecisionsJoinNobody(s.pool, s.tasks[a.task], a.oracle);
    } else {
      OthersJoinNobody(s, a);
    }
  }

  lemma ShutdownStays(s: System, a: Action)
    requires Enabled(s, a)
    ensures s.pool.shutdown ==> Step(s, a).pool.shutdown
  {
  }

  /** Before shutdown, and as long as no worker task fails, no worker is ever joined. */
  lemma {:induction false} NoJoinWithoutFailure(config: Config, states: seq<System>, actions: seq<Action>, k: nat)
    requires IsRun(config, states, actions) && k < |states| && !states[k].pool.shutdown
    requires forall n :: 0 <= n < k ==> !Fails(actions[n])
    ensures NobodyDied(states[k]) && states[k].pool.joined == {}
  {
    hide Step;
    if k > 0 {
      RunsKeepInvariants(config, states, actions, k - 1);
      ShutdownStays(states[k - 1], actions[k - 1]);
      NoJoinWithoutFailure(config, states, actions, k - 1);
      NobodyDies(states[k - 1], actions[k - 1]);
      NobodyIsJoined(states[k - 1], actions[k - 1]);
    }
  }

  /** In such runs comparing the generation is enough: a slot is only ever served by one worker. */
  lemma GenerationIdentifiesTheBooking(config: Config, states: seq<System>, actions: seq<Action>, k: nat, t: nat)
    requires IsRun(config, states, actions) && k < |states| && !states[k].pool.shutdown
    requires forall n :: 0 <= n < k ==> !Fails(actions[n])
    requires t in states[k].tasks && states[k].tasks[t].pc.Done? && states[k].tasks[t].pc.outcome.Created?
    requires states[k].tasks[t].pc.outcome.status.generation == states[k].tasks[t].pc.outcome.booking.generation
    ensures var job, outcome := states[k].tasks[t].job, states[k].tasks[t].pc.outcome;
            && job.Create?
            && outcome.status.pid.Some?
            && TryIntoRuntime(outcome.status)
               == Ok(VmRuntime(job.name, job.mac, TapName(outcome.booking.slot), outcome.status.pid.value, outcome.startedAt))
  {
    hide Step;
    NoJoinWithoutFailure(config, states, actions, k);
    RunsKeepInvariants(config, states, actions, k);
    CreateReturnsItsVm(config, states, actions, k, t);
  }

  // ---------- Shutdown ----------

  /** A worker leaves its loop only once shutdown was announced. */
  lemma WorkersLeaveOnlyOnShutdown(config: Config, states: seq<System>, actions: seq<Action>, k: nat, i: nat)
    requires IsRun(config, states, actions) && k < |states| && i < |states[k].pool.slots|
    requires states[k].pool.slots[i].task.Left?
    ensures states[k].pool.shutdown
  {
    hide Step;
    RunsKeepInvariants(config, states, actions, k);
    assert WorkerOk(states[k].pool, i, states[k].pool.slots[i]);
  }

  ghost predicate AllJoined(p: Shared) {
    forall id: nat :: id < p.nextWorker ==> id in p.joined
  }

  lemma NobodyElseJoins(s: System, t: nat)
    requires Exclusive(s) && t in s.tasks && s.tasks[t].pc.DrainPool?
    ensures forall id :: !Popped(s, id)
  {
    assert GuardOf(s.tasks[t]).WriteGuard?;
    assert forall u :: u in s.tasks && u != t ==> GuardOf(s.tasks[u]).NoGuard?;
  }

  /** When shutdown completes, the pool is empty and every worker ever started has been joined. */
  lemma ShutdownDrainsThePool(config: Config, states: seq<System>, actions: seq<Action>, k: nat)
    requires IsRun(config, states, actions) && k < |actions| && actions[k].Decide?
    requires states[k].tasks[actions[k].task].pc.DrainPool?
    requires states[k + 1].tasks[actions[k].task].pc == Done(ShutDown)
    ensures states[k + 1].pool.slots == [] && states[k + 1].pool.shutdown
    ensures AllJoined(states[k + 1].pool)
  {
    RunsKeepInvariants(config, states, actions, k);
    var s, t := states[k], actions[k].task;
    assert TaskOk(s.pool, s.tasks[t]);
    NobodyElseJoins(s, t);
    forall id: nat | id < s.pool.nextWorker ensures id in s.pool.joined {
      assert !InPool(s.pool, id);
    }
  }

  /** A worker is joined only after it ended. */
  lemma OnlyEndedWorkersAreJoined(config: Config, states: seq<System>, actions: seq<Action>, k: nat, id: nat)
    requires IsRun(config, states, actions) && k < |actions|
    requires id !in states[k].pool.joined && id in states[k + 1].pool.joined
    ensures actions[k].Decide? && Joining(states[k].tasks[actions[k].task])
    ensures states[k].tasks[actions[k].task].pc.popped.id == id
    ensures !states[k].tasks[actions[k].task].pc.popped.task.Running?
  {
  }
}
