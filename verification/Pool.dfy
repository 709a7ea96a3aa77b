/**
 The pool object: the methods of the process pool as programs over the shared state. Between
 any two of their steps the workers move on (Interfere). Each method carries, as a ghost, the
 task of the protocol it executes, and follows its program: so what the protocol proves about
 tasks holds of this code, and the code keeps the pool's invariant, unique names included. What
 a method reports is tied, by the effects it returns as ghosts, to moments of the pool.
 */
module Pool {
  import opened Slots
  import opened SlotSteps
  import opened Decimal
  import opened Protocol
  import opened ProtocolInvariant
  import opened WorkerSteps
  import opened TaskSteps
  import opened PoolMoves
  import opened Decisions
  import opened Interference

  /** The invariant of the pool but for its maximal size, which only allocation looks at. */
  ghost predicate WorkersOk(p: Shared) {
    && SlotsOk(p) && UniqueNames(p) && AnswersOk(p)
    && p.config.min <= p.config.max && (!p.shutdown ==> p.config.min <= |p.slots|)
  }

  lemma ValidIffNotTooLarge(p: Shared)
    ensures PoolOk(p) <==> WorkersOk(p) && (p.shutdown || |p.slots| <= p.config.max)
  {
    hide SlotsOk, UniqueNames, AnswersOk;
  }

  lemma GrowKeepsWorkers(p: Shared)
    requires WorkersOk(p)
    ensures WorkersOk(Moved(p, Grow))
  {
    var w := FreshWorker(p.nextWorker, |p.slots|);
    GrowKeepsNames(p.slots, w);
    var p' := Moved(p, Grow);
    forall i | 0 <= i < |p'.slots| ensures WorkerOk(p', i, p'.slots[i]) {
      if i < |p.slots| {
        assert WorkerOk(p, i, p.slots[i]);
      }
    }
  }

  /** Whoever just took the read guard may scan, whatever for. */
  lemma ReadingIsOk(p: Shared, task: Task)
    requires PoolOk(p) && task.job.Proxy? && task.pc == FindByName([]) && task.call.None? && task.since == p.nextTicket
    ensures TaskOk(p, task)
  {
    NothingFromTheFuture(p);
  }

  // ---------- Allocations ----------

  /** The program of a create from the moment it has the write lock. */
  function Creating(name: string, mac: string, restore: bool, since: nat): Task {
    Task(Create(name, mac, restore), FindByName([]), None, since)
  }

  lemma CreatingIsOk(p: Shared, name: string, mac: string, restore: bool)
    requires PoolOk(p)
    ensures TaskOk(p, Creating(name, mac, restore, p.nextTicket))
  {
    NothingFromTheFuture(p);
  }

  /** The program of a create that knows its name to be free, before it looks for an empty slot. */
  predicate Searching(task: Task, name: string, mac: string) {
    task.job.Create? && task == Creating(name, mac, task.job.restore, task.since).(pc := FindEmpty([]))
  }

  lemma ReserveInRange(p: Shared, task: Task)
    requires TaskOk(p, task) && task.pc.Reserve? && task.call.None? && task.job.Create?
    ensures task.pc.slot < |p.slots|
    ensures RequestAt(task, |p.slots|) == Some((task.pc.slot, ReserveVm(task.job.name, task.job.mac, TapName(task.pc.slot))))
  {
    assert AllocationOk(p, task);
  }

  lemma ReserveFollows(p: Shared, task: Task, seen: seq<SlotStatus>, i: nat)
    requires task.call.None? && task.pc == FindEmpty([]) && TaskOk(p, task.(pc := FindEmpty(seen)))
    requires i < |seen| <= |p.slots|
    ensures TaskOk(p, task.(pc := Reserve(i))) && seen[i].slot == i
  {
    assert AllocationOk(p, task.(pc := FindEmpty(seen)));
  }

  lemma NowSearching(p: Shared, task: Task, seen: seq<SlotStatus>)
    requires TaskOk(p, task.(pc := FindByName(seen))) && task.call.None? && task.job.Create?
    requires ClearOf(p, task.since, task.job.name)
    ensures TaskOk(p, task.(pc := FindEmpty([])))
  {
  }

  /** The reservation an allocation sends: to the first slot its scan saw empty, under the name and the tap of the slot. */
  ghost predicate Reserves(scan: Scan, e: Effect, q: Shared, name: string, mac: string) {
    && Performed(scan.until, e, q)
    && FirstEmpty(scan.seen) == Some(e.slot) && e.command == ReserveVm(name, mac, TapName(e.slot))
  }

  /** One round of an allocation, from `p` to `q`: `None` when a whole scan saw no empty slot. */
  ghost predicate Tried(p: Shared, scan: Scan, effect: Option<Effect>, q: Shared, name: string, mac: string, result: Option<Reply>) {
    && IsScan(scan) && scan.from == p && Interfered(scan.until, q)
    && (effect.Some? ==> IsWholeScan(scan) && Reserves(scan, effect.value, q, name, mac) && result == Some(EffectReply(effect.value)))
    && match result
       case None => IsWholeScan(scan) && effect.None? && FirstEmpty(scan.seen).None? && q == scan.until
       case Some(Ok(_)) => effect.Some?
       case Some(Err(error)) =>
         if error.ChannelClosed? then
           SomeoneEnded(q) && effect.None? && (if IsWholeScan(scan) then FirstEmpty(scan.seen).Some? else StoppedAt(scan))
         else effect.Some? && (error.InvalidTransition? || error.Backend?)
  }

  /**
   What an allocation did: the lookup of the name, its scans for an empty slot, one after the
   other, and the reservation it sent. Only the last scan decides; after each earlier one it grew
   the pool by one slot.
   */
  datatype Allocation = Allocation(lookup: Scan, scans: seq<Scan>, effect: Option<Effect>)

  /** The pool before scan `k`: as the lookup left it, or with one slot more than the scan before left it. */
  function PoolBefore(lookup: Scan, scans: seq<Scan>, k: nat): Shared
    requires k <= |scans|
  {
    if k == 0 then lookup.until else Moved(scans[k - 1].until, Grow)
  }

  /** The first `n` scans were whole and saw no empty slot, in a pool below its maximal size. */
  ghost predicate Fruitless(lookup: Scan, scans: seq<Scan>, n: nat) {
    n <= |scans| && forall k :: 0 <= k < n ==>
      && scans[k].from == PoolBefore(lookup, scans, k)
      && IsWholeScan(scans[k]) && FirstEmpty(scans[k].seen).None? && |scans[k].until.slots| < scans[k].until.config.max
  }

  ghost predicate Allocated(p: Shared, run: Allocation, q: Shared, name: string, mac: string, result: Reply) {
    var n := |run.scans|;
    && IsScan(run.lookup) && run.lookup.from == p
    && (if n == 0 then q == run.lookup.until && run.effect.None?
        else
          && IsWholeScan(run.lookup) && FirstNamed(run.lookup.seen, name).None?
          && Fruitless(run.lookup, run.scans, n - 1)
          && IsScan(run.scans[n - 1]) && run.scans[n - 1].from == PoolBefore(run.lookup, run.scans, n - 1)
          && Interfered(run.scans[n - 1].until, q))
    // it grew by one slot for every scan before the last
    && |q.slots| == |p.slots| + (if n == 0 then 0 else n - 1)
    && (run.effect.Some? ==>
          && n > 0 && IsWholeScan(run.scans[n - 1])
          && Reserves(run.scans[n - 1], run.effect.value, q, name, mac) && result == EffectReply(run.effect.value))
    && match result
       case Ok(_) => run.effect.Some?
       case Err(VmAlreadyRunning(taken)) =>
         taken == name && n == 0 && IsWholeScan(run.lookup) && FirstNamed(run.lookup.seen, name).Some?
       case Err(NoAvailableSlot) =>
         && n > 0 && run.effect.None? && |q.slots| >= q.config.max
         && IsWholeScan(run.scans[n - 1]) && FirstEmpty(run.scans[n - 1].seen).None?
       case Err(ChannelClosed) =>
         && SomeoneEnded(q) && run.effect.None?
         && (if n == 0 then StoppedAt(run.lookup)
             else if IsWholeScan(run.scans[n - 1]) then FirstEmpty(run.scans[n - 1].seen).Some?
             else StoppedAt(run.scans[n - 1]))
       case Err(SlotNotFound(_)) => false
       case Err(_) => run.effect.Some?
  }

  lemma LookupFails(p: Shared, run: Allocation, q: Shared, name: string, mac: string)
    requires IsScan(run.lookup) && run.lookup.from == p && run.lookup.until == q && run.scans == [] && run.effect.None?
    requires StoppedAt(run.lookup)
    ensures Allocated(p, run, q, name, mac, Err(ChannelClosed))
  {
    hide IsEffect;
    SameShape(p, q);
  }

  lemma NameIsTaken(p: Shared, run: Allocation, q: Shared, name: string, mac: string)
    requires IsWholeScan(run.lookup) && run.lookup.from == p && run.lookup.until == q && run.scans == [] && run.effect.None?
    requires FirstNamed(run.lookup.seen, name).Some?
    ensures Allocated(p, run, q, name, mac, Err(VmAlreadyRunning(name)))
  {
    hide IsEffect;
    SameShape(p, q);
  }

  lemma RoundEvolves(o: Shared, p: Shared, q: Shared)
    requires PoolEvolved(o, p) && Interfered(p, q)
    ensures PoolEvolved(o, q) && |q.slots| == |p.slots| && q.config == p.config
  {
    hide PoolEvolved;
    InterferedEvolves(p, q);
    PoolEvolvedTransitive(o, p, q);
  }

  /** Where an allocation stands before its next scan: the name is free, and these scans were in vain. */
  ghost predicate StillSearching(o: Shared, lookup: Scan, scans: seq<Scan>, p: Shared, name: string) {
    && IsWholeScan(lookup) && lookup.from == o && FirstNamed(lookup.seen, name).None?
    && Fruitless(lookup, scans, |scans|) && p == PoolBefore(lookup, scans, |scans|)
    && |p.slots| == |o.slots| + |scans|
  }

  lemma SearchStarts(o: Shared, lookup: Scan, name: string)
    requires IsWholeScan(lookup) && lookup.from == o && FirstNamed(lookup.seen, name).None?
    ensures StillSearching(o, lookup, [], lookup.until, name)
  {
    hide IsEffect;
    SameShape(o, lookup.until);
  }

  lemma FruitlessLonger(lookup: Scan, scans: seq<Scan>, next: Scan)
    requires Fruitless(lookup, scans, |scans|)
    ensures Fruitless(lookup, scans + [next], |scans|)
    ensures PoolBefore(lookup, scans + [next], |scans|) == PoolBefore(lookup, scans, |scans|)
  {
    hide IsScan;
    var longer := scans + [next];
    forall k | 0 <= k < |scans|
      ensures longer[k].from == PoolBefore(lookup, longer, k) && IsWholeScan(longer[k])
      ensures FirstEmpty(longer[k].seen).None? && |longer[k].until.slots| < longer[k].until.config.max
    {
      assert longer[k] == scans[k] && PoolBefore(lookup, longer, k) == PoolBefore(lookup, scans, k);
    }
  }

  lemma TriedShape(p: Shared, scan: Scan, effect: Option<Effect>, q: Shared, name: string, mac: string, result: Option<Reply>)
    requires Tried(p, scan, effect, q, name, mac, result)
    ensures Interfered(p, q) && |q.slots| == |p.slots| && q.config == p.config
  {
    hide IsEffect, Interfered, EntryOk, Before;
    InterferedTransitive(p, scan.until, q);
    SameShape(p, q);
  }

  lemma RoundDecides(o: Shared, lookup: Scan, scans: seq<Scan>, p: Shared, scan: Scan, effect: Option<Effect>, q: Shared, name: string, mac: string,
                     reply: Reply)
    requires StillSearching(o, lookup, scans, p, name) && Tried(p, scan, effect, q, name, mac, Some(reply))
    ensures Allocated(o, Allocation(lookup, scans + [scan], effect), q, name, mac, reply)
  {
    hide EntryOk, Before, IsEffect, Interfered, Fruitless;
    TriedShape(p, scan, effect, q, name, mac, Some(reply));
    FruitlessLonger(lookup, scans, scan);
  }

  lemma PoolIsFull(o: Shared, lookup: Scan, scans: seq<Scan>, p: Shared, scan: Scan, effect: Option<Effect>, q: Shared, name: string, mac: string)
    requires StillSearching(o, lookup, scans, p, name) && Tried(p, scan, effect, q, name, mac, None) && |q.slots| >= q.config.max
    ensures Allocated(o, Allocation(lookup, scans + [scan], effect), q, name, mac, Err(NoAvailableSlot))
  {
    hide EntryOk, Before, IsEffect, Interfered, Fruitless;
    TriedShape(p, scan, effect, q, name, mac, None);
    FruitlessLonger(lookup, scans, scan);
  }

  /** A scan in vain, below the maximal size, and one slot more. */
  lemma SearchGoesOn(o: Shared, lookup: Scan, scans: seq<Scan>, p: Shared, scan: Scan, effect: Option<Effect>, q: Shared, name: string, mac: string)
    requires StillSearching(o, lookup, scans, p, name) && Tried(p, scan, effect, q, name, mac, None) && |q.slots| < q.config.max
    ensures StillSearching(o, lookup, scans + [scan], Moved(q, Grow), name)
  {
    hide EntryOk, Before, IsEffect, Interfered, IsScan, Moved;
    TriedShape(p, scan, effect, q, name, mac, None);
    FruitlessLonger(lookup, scans, scan);
    GrowsByOne(q);
  }

  lemma GrowsByOne(p: Shared)
    ensures |Moved(p, Grow).slots| == |p.slots| + 1
  {
  }

  // ---------- Shrinking ----------

  /** What the last of `size` slots replied to the autoscaler. */
  ghost predicate TailReplied(e: Effect, size: nat, empty: bool) {
    && IsEffect(e) && e.slot + 1 == size && e.command == GetVmStatus
    && EffectReply(e).Ok? && (empty <==> EffectReply(e).value.state.Empty?)
  }

  lemma TailLearned(p: Shared, task: Task, asking: Task, status: SlotStatus)
    requires PoolOk(p) && task.pc.AskTail? && task.call.None? && asking.(call := None) == task && Learned(p, asking, task.pc.slot, Ok(status))
    ensures status.state.Empty? ==> TaskOk(p, task.(pc := PopTail(task.pc.slot)))
  {
    hide TaskOk;
    StatusReceived(p, asking, p.slots[task.pc.slot].id, status);
  }

  /** The task that awaits this popped worker. */
  function WithPopped(task: Task, w: Worker): Task {
    task.(pc := if task.pc.JoinDrained? then JoinDrained(w) else JoinTail(w))
  }

  lemma AnswersInterfere(p: Shared, added: map<nat, Answer>)
    ensures Interfered(p, p.(answers := p.answers + added))
  {
  }

  lemma PoppedMoves(p: Shared, task: Task, event: WorkerEvent)
    requires PoolOk(p) && TaskOk(p, task) && (task.pc.JoinTail? || task.pc.JoinDrained?) && WorkerCan(task.pc.popped, p.shutdown, event)
    ensures WorkerCan(task.pc.popped, true, event)
    ensures var p' := p.(answers := p.answers + NewAnswers(task.pc.popped, event));
            var w := WorkerAfter(task.pc.popped, event);
            && PoolOk(p') && TaskOk(p', WithPopped(task, w))
            && w.id == task.pc.popped.id && Since(task.pc.popped.rt.status, w.rt.status)
  {
    hide PoolOk, Since;
    var p' := p.(answers := p.answers + NewAnswers(task.pc.popped, event));
    PoppedKeepsPool(p, task, event);
    PoppedTaskStaysOk(p, task, event, p'.answers, WithPopped(task, WorkerAfter(task.pc.popped, event)).pc);
    PoppedEvolves(p, task, event);
  }

  lemma PoppedKeepsPool(p: Shared, task: Task, event: WorkerEvent)
    requires PoolOk(p) && PoolWorkOk(p, task) && (task.pc.JoinTail? || task.pc.JoinDrained?) && WorkerCan(task.pc.popped, p.shutdown, event)
    ensures PoolOk(p.(answers := p.answers + NewAnswers(task.pc.popped, event)))
  {
    var p' := p.(answers := p.answers + NewAnswers(task.pc.popped, event));
    NewAnswersOk(p, |p.slots|, task.pc.popped, event);
    SamePool(p, p');
  }

  lemma PoppedEvolves(p: Shared, task: Task, event: WorkerEvent)
    requires PoolWorkOk(p, task) && (task.pc.JoinTail? || task.pc.JoinDrained?) && WorkerCan(task.pc.popped, p.shutdown, event)
    ensures Since(task.pc.popped.rt.status, WorkerAfter(task.pc.popped, event).rt.status)
  {
    SinceKept(task.pc.popped.rt.status, task.pc.popped, event);
  }

  lemma PoppedIsKnown(p: Shared, task: Task, w: Worker)
    requires TaskOk(p, task) && task.pc == JoinTail(w)
    ensures Vacant(w) && (!w.task.Running? && !p.shutdown ==> w.task.Died?)
  {
    hide CallOk, GuardOk;
    assert WorkerOk(p, |p.slots|, w);
  }

  lemma JoinKeepsLoss(p: Shared, q: Shared, worker: nat)
    requires LostItsTail(p, q)
    ensures LostItsTail(p, Moved(q, Join(true, worker)))
  {
  }

  lemma AskingTailIsOk(p: Shared)
    requires PoolOk(p) && |p.slots| > p.config.min && !CoolingDown(p)
    ensures |p.slots| > 0
    ensures TaskOk(p, Task(Autoscale, AskTail(|p.slots| - 1), None, p.nextTicket))
  {
    NothingFromTheFuture(p);
  }

  lemma SameShape(p: Shared, q: Shared)
    requires Interfered(p, q)
    ensures |q.slots| == |p.slots| && q.config == p.config && q.lastScaleDown == p.lastScaleDown && q.joined == p.joined
    ensures forall i :: 0 <= i < |p.slots| ==> q.slots[i].id == p.slots[i].id && Since(p.slots[i].rt.status, q.slots[i].rt.status)
  {
  }

  lemma TickLoses(o: Shared, e: Effect, p: Shared, q: Shared, removed: Worker)
    requires Performed(o, e, p) && Interfered(o, p) && LostItsTail(p, q) && |q.slots| + 1 == |p.slots| == |o.slots|
    requires Since(p.slots[|q.slots|].rt.status, removed.rt.status)
    ensures LostItsTail(o, q) && LostItsTail(AfterEffect(e), q)
    ensures Since(o.slots[|q.slots|].rt.status, removed.rt.status) && o.slots[|q.slots|].id == p.slots[|q.slots|].id
  {
    hide IsEffect, Interfered, LostItsTail;
    SameShape(o, p);
    InterferedThenLost(o, p, q);
    InterferedThenLost(AfterEffect(e), p, q);
    SinceTransitive(o.slots[|q.slots|].rt.status, p.slots[|q.slots|].rt.status, removed.rt.status);
  }

  lemma TailMayGo(p: Shared, task: Task)
    requires TaskOk(p, task) && task.pc.PopTail?
    ensures |p.slots| > p.config.min
  {
    assert PoolWorkOk(p, task);
  }

  lemma PopIsFine(p: Shared, task: Task)
    requires PoolOk(p) && |p.slots| > 0 && TaskOk(p, task) && task.call.None? && (task.pc.PopTail? || task.pc.DrainPool?)
    ensures var popped := p.slots[|p.slots| - 1];
            && PoolOk(Moved(p, Pop))
            && TaskOk(Moved(p, Pop), task.(pc := if task.pc.PopTail? then JoinTail(popped) else JoinDrained(popped)))
  {
    var popped := p.slots[|p.slots| - 1];
    PopDecided(p, task, if task.pc.PopTail? then JoinTail(popped) else JoinDrained(popped));
    MoveKeepsPool(p, Pop);
  }

  lemma TargetInRange(p: Shared, task: Task)
    requires TaskOk(p, task) && task.pc.Release?
    ensures task.pc.target.slot < |p.slots|
  {
    assert TargetOk(p, task.job, task.since, task.pc.target);
  }

  // ---------- Stopping ----------

  lemma RaisedTask(p: Shared)
    requires PoolOk(p)
    ensures PoolOk(Moved(p, RaiseShutdown))
    ensures TaskOk(Moved(p, RaiseShutdown), Task(Job.Shutdown, DrainPool, None, p.nextTicket))
  {
    MoveKeepsPool(p, RaiseShutdown);
    NothingFromTheFuture(p);
  }

  lemma DrainingIsShutdown(p: Shared, task: Task)
    requires TaskOk(p, task) && (task.pc.JoinDrained? || task.pc.DrainPool?)
    ensures p.shutdown
  {
    assert PoolWorkOk(p, task);
  }

  lemma JoinIsFine(o: Shared, p: Shared, task: Task, w: Worker)
    requires PoolOk(p) && Interfered(o, p) && TaskOk(p, task.(pc := JoinDrained(w))) && task.call.None? && !w.task.Running?
    ensures PoolOk(Moved(p, Join(false, w.id))) && TaskOk(Moved(p, Join(false, w.id)), task.(pc := DrainPool))
    ensures Interfered(o, Moved(p, Join(false, w.id)).(joined := o.joined))
  {
    hide PoolOk;
    MoveKeepsPool(p, Join(false, w.id));
    JoinDecided(p, task.(pc := JoinDrained(w)), Oracle(false, false, HttpStatus(0), ""));
  }

  lemma DrainLoses(o: Shared, p: Shared, q: Shared)
    requires LostItsTail(o, p) && Interfered(p, q.(joined := p.joined))
    ensures LostItsTail(o, q) && |q.slots| == |o.slots| - 1
  {
    LostThenInterfered(o, p, q.(joined := p.joined));
  }

  /** What an operation does to the pool itself; status requests change nothing and are not counted. */
  datatype Deed = Issued(slot: nat, command: Command) | Grew | TookOut | Announced

  /** This command was sent, or, unless it surely was, it may not have been: then there was nobody to send it to. */
  ghost predicate Did(before: seq<Deed>, after: seq<Deed>, slot: nat, command: Command, surely: bool) {
    after == before + [Issued(slot, command)] || (!surely && after == before)
  }

  /** The same deed so many times. */
  function Times(deed: Deed, n: nat): seq<Deed> {
    seq(n, _ => deed)
  }

  lemma OneMore(before: seq<Deed>, deed: Deed, n: nat)
    ensures before + Times(deed, n) + Times(deed, 1) == before + Times(deed, n + 1)
    ensures before + Times(deed, 0) == before
  {
  }

  /** After a scan an allocation sends one reservation to the first slot that was seen empty, if there is one, and does nothing else. */
  ghost predicate RoundDid(before: seq<Deed>, after: seq<Deed>, scan: Scan, effect: Option<Effect>, name: string, mac: string) {
    if IsWholeScan(scan) && FirstEmpty(scan.seen).Some? then
      var i := FirstEmpty(scan.seen).value;
      Did(before, after, i, ReserveVm(name, mac, TapName(i)), effect.Some?)
    else after == before
  }

  /** An allocation grows the pool by one slot for every scan before the last, and does nothing else before that. */
  ghost predicate AllocationDid(before: seq<Deed>, after: seq<Deed>, run: Allocation, name: string, mac: string) {
    var n := |run.scans|;
    if n == 0 then after == before
    else RoundDid(before + Times(Grew, n - 1), after, run.scans[n - 1], run.effect, name, mac)
  }

  lemma RoundIsLast(before: seq<Deed>, after: seq<Deed>, lookup: Scan, scans: seq<Scan>, scan: Scan, effect: Option<Effect>, name: string, mac: string)
    requires RoundDid(before + Times(Grew, |scans|), after, scan, effect, name, mac)
    ensures AllocationDid(before, after, Allocation(lookup, scans + [scan], effect), name, mac)
  {
    hide RoundDid, Times;
  }

  lemma LookupDoesNothing(before: seq<Deed>, lookup: Scan, name: string, mac: string)
    ensures AllocationDid(before, before, Allocation(lookup, [], None), name, mac)
  {
  }

  lemma VainRoundDoesNothing(before: seq<Deed>, after: seq<Deed>, p: Shared, scan: Scan, effect: Option<Effect>, q: Shared, name: string, mac: string)
    requires RoundDid(before, after, scan, effect, name, mac) && Tried(p, scan, effect, q, name, mac, None)
    ensures after == before
  {
    hide IsScan, Interfered;
  }

  class ProcessPool {
    /** The pool's fields, and the workers and channels behind its handles. */
    var shared: Shared
    /** What the operation at hand did, and not others meanwhile. */
    ghost var deeds: seq<Deed>

    ghost predicate Valid()
      reads this`shared
    {
      PoolOk(shared)
    }

    // ---------- The surroundings ----------

    /** One step of a worker. */
    method Advance(i: nat, event: WorkerEvent, ghost task: Task)
      requires Valid() && TaskOk(shared, task) && Pending(shared, task) && WorkerEnabled(shared, i, event)
      modifies this`shared
      ensures Valid() && TaskOk(shared, task) && Pending(shared, task)
      ensures Interfered(old(shared), shared)
      ensures shared == WorkerStepped(old(shared), i, event)
    {
      hide PoolOk, TaskOk, Pending, Interfered, WorkerStepped;
      WorkerStepKeepsPool(shared, i, event);
      WorkerStepKeepsTask(shared, i, event, task);
      PendingAfterStep(shared, i, event, task);
      StepInterferes(shared, i, event);
      shared := WorkerStepped(shared, i, event);
    }

    /** A command of another holder of a read guard; none of them reserves. */
    method Intrude(i: nat, command: Command, ghost task: Task)
      requires Valid() && TaskOk(shared, task) && Pending(shared, task) && MayPost(shared, i, command) && !command.ReserveVm?
      modifies this`shared
      ensures Valid() && TaskOk(shared, task) && Pending(shared, task)
      ensures Interfered(old(shared), shared) && shared == Posted(old(shared), i, command)
    {
      hide PoolOk, TaskOk, Pending, Interfered, Posted;
      PostKeepsPool(shared, i, command);
      PostKeepsTask(shared, i, command, task);
      PendingAfterPost(shared, i, command, task);
      shared := Posted(shared, i, command);
    }

    /** Time passes. */
    method Pass(time: nat, ghost task: Task)
      requires Valid() && TaskOk(shared, task) && Pending(shared, task)
      modifies this`shared
      ensures Valid() && TaskOk(shared, task) && Pending(shared, task)
      ensures Interfered(old(shared), shared) && shared == Later(old(shared), time)
    {
      hide PoolOk, TaskOk, Pending, Interfered;
      PassIsFine(shared, time, task);
      shared := Later(shared, time);
    }

    /**
     Whatever the workers and other readers do while this task waits; the step that answers the
     ticket `held` is left to the one who awaits it.
     */
    method Interfere(ghost task: Task, held: Option<nat>)
      requires Valid() && TaskOk(shared, task) && Pending(shared, task)
      modifies this`shared
      ensures Valid() && TaskOk(shared, task) && Pending(shared, task)
      ensures Interfered(old(shared), shared) && KeepsAnswer(old(shared), shared, held)
    {
      hide PoolOk, TaskOk, Pending, Interfered;
      InterferedReflexive(shared);
      var turns: int := *;
      while turns > 0
        invariant Valid() && TaskOk(shared, task) && Pending(shared, task)
        invariant Interfered(old(shared), shared) && KeepsAnswer(old(shared), shared, held)
      {
        ghost var before := shared;
        InterferedReflexive(before);
        var i: int := *;
        var event: WorkerEvent := *;
        var command: Command := *;
        var time: int := *;
        if time > 0 {
          Pass(time, task);
        } else if 0 <= i && WorkerEnabled(shared, i, event) && !Answers(shared.slots[i], event, held) {
          Advance(i, event, task);
        } else if 0 <= i < |shared.slots| && shared.slots[i].task.Running? && |shared.slots[i].mailbox| < CHANNEL_CAPACITY && !command.ReserveVm? {
          Intrude(i, command, task);
        }
        InterferedTransitive(old(shared), before, shared);
        turns := turns - 1;
      }
    }

    // ---------- Calling a worker ----------

    /**
     Waits for the answer to the task's call: others move for a while, until the worker takes the
     command, or ends. `effect` is the moment at which it took it.
     */
    method AwaitAnswer(ghost task: Task, slot: nat, ticket: nat) returns (ghost effect: Option<Effect>)
      requires Valid() && TaskOk(shared, task) && Pending(shared, task) && ticket !in shared.answers
      requires task.call.Some? && task.call.value.ticket == ticket && task.call.value.slot == slot
      modifies this`shared
      ensures Valid() && TaskOk(shared, task)
      ensures Interfered(old(shared), shared) && Resolved(old(shared), shared, task.call.value, effect)
    {
      hide PoolOk, TaskOk, Interfered, IsEffect, WorkerStepped, Resolved;
      effect := None;
      Interfere(task, Some(ticket));
      while ticket !in shared.answers
        invariant Valid() && TaskOk(shared, task) && Pending(shared, task)
        invariant Interfered(old(shared), shared)
        invariant ticket in shared.answers ==> Resolved(old(shared), shared, task.call.value, effect)
        decreases if ticket in shared.answers then 0 else 1 + |shared.slots[slot].mailbox|
      {
        ghost var before := shared;
        effect := AdvanceCall(task, slot, ticket);
        InterferedTransitive(old(shared), before, shared);
        if ticket in shared.answers {
          ResolvedEarlier(old(shared), before, shared, task.call.value, effect);
        }
      }
    }

    /** The worker of a waiting task takes its next command, or ends. */
    method AdvanceCall(ghost task: Task, slot: nat, ticket: nat) returns (ghost effect: Option<Effect>)
      requires Valid() && TaskOk(shared, task) && Pending(shared, task) && ticket !in shared.answers
      requires task.call.Some? && task.call.value.ticket == ticket && task.call.value.slot == slot
      modifies this`shared
      ensures Valid() && TaskOk(shared, task) && Pending(shared, task) && Interfered(old(shared), shared)
      ensures ticket in shared.answers ==> Resolved(old(shared), shared, task.call.value, effect)
      ensures ticket !in shared.answers ==> |shared.slots[slot].mailbox| < |old(shared).slots[slot].mailbox|
    {
      hide PoolOk, TaskOk, Interfered, IsEffect, Resolved;
      effect := None;
      ghost var before := shared;
      var end: WorkerEvent := *;
      var tapError: Option<string> := *;
      if (end.Leave? || end.Die?) && WorkerCan(shared.slots[slot], shared.shutdown, end) {
        Advance(slot, end, task);
        EndResolves(before, task, slot, end);
      } else {
        Advance(slot, Take(tapError), task);
        if before.slots[slot].mailbox[0].ticket == ticket {
          effect := Some(Effect(before, slot, ticket, task.call.value.command, tapError));
          TakeResolves(before, task, slot, tapError);
        } else {
          TakeLeavesOthers(before, slot, tapError, ticket);
        }
      }
    }

    /** Sends a command to a slot; when the channel is full the worker makes room first. */
    method Post(ghost task: Task, slot: nat, command: Command) returns (ticket: Option<nat>)
      requires Valid() && TaskOk(shared, task) && task.call.None? && slot < |shared.slots|
      requires RequestAt(task, |shared.slots|) == Some((slot, command))
      modifies this`shared
      ensures Valid() && Interfered(old(shared), shared)
      ensures ticket.Some? ==>
                var asking := Asking(task, ticket.value, slot, command);
                && TaskOk(shared, asking) && Pending(shared, asking) && ticket.value !in shared.answers
                && old(shared).nextTicket <= ticket.value
      ensures ticket.None? ==> !shared.slots[slot].task.Running?
    {
      hide PoolOk, TaskOk, Posted, WorkerStepped;
      Interfere(task, None);
      if !shared.slots[slot].task.Running? {
        return None;
      }
      MakeRoom(task, slot);
      ghost var before := shared;
      PostedIsFine(shared, task, slot, command);
      ticket := Some(shared.nextTicket);
      shared := Posted(shared, slot, command);
      InterferedTransitive(old(shared), before, shared);
    }

    /** A full channel has room again once its worker took a command. */
    method MakeRoom(ghost task: Task, slot: nat)
      requires Valid() && TaskOk(shared, task) && task.call.None? && slot < |shared.slots| && shared.slots[slot].task.Running?
      modifies this`shared
      ensures Valid() && TaskOk(shared, task) && Interfered(old(shared), shared)
      ensures shared.slots[slot].task.Running? && |shared.slots[slot].mailbox| < CHANNEL_CAPACITY
    {
      hide TaskOk;
      InterferedReflexive(shared);
      assert WorkerOk(shared, slot, shared.slots[slot]);
      if |shared.slots[slot].mailbox| == CHANNEL_CAPACITY {
        var tapError: Option<string> := *;
        Advance(slot, Take(tapError), task);
      }
    }

    /**
     Sends a command and waits for its reply. `effect` is the moment at which the worker took it:
     after the call began and before it returns. Without one, there is no such slot, or its
     worker ended.
     */
    method Request(ghost task: Task, slot: nat, command: Command) returns (reply: Reply, ghost asking: Task, ghost effect: Option<Effect>)
      requires Valid() && TaskOk(shared, task) && task.call.None?
      requires RequestAt(task, |shared.slots|) == Some((slot, command))
      modifies this
      ensures Valid() && Interfered(old(shared), shared)
      ensures slot >= |old(shared).slots| ==> reply == Err(SlotNotFound(slot)) && shared == old(shared)
      ensures match effect
              case Some(e) => Performed(old(shared), e, shared) && e.slot == slot && e.command == command && EffectReply(e) == reply
              case None => Unserved(shared, slot, reply)
      ensures if command.GetVmStatus? then deeds == old(deeds) else Did(old(deeds), deeds, slot, command, effect.Some?)
      ensures asking.(call := None) == task && (reply.Ok? ==> asking.call.Some? && asking.call.value.slot == slot)
      ensures effect.Some? ==> slot < |shared.slots| && Learned(shared, asking, slot, reply)
    {
      hide PoolOk, TaskOk, IsEffect, Interfered;
      asking, effect := task, None;
      if slot >= |shared.slots| {
        InterferedReflexive(shared);
        return Err(SlotNotFound(slot)), task, None;
      }
      var ticket := Post(task, slot, command);
      SameSize(old(shared), shared);
      if ticket.None? {
        return Err(ChannelClosed), task, None;
      }
      if !command.GetVmStatus? {
        deeds := deeds + [Issued(slot, command)];
      }
      asking := Asking(task, ticket.value, slot, command);
      ghost var posted := shared;
      effect := AwaitAnswer(asking, slot, ticket.value);
      ghost var answered := shared;
      LearnFrom(old(shared), posted, answered, asking, effect);
      match shared.answers[ticket.value] {
        case Lost => reply := Err(ChannelClosed);
        case Answer(_, answer) => reply := answer;
      }
      Interfere(asking, Some(ticket.value));
      LearnLater(old(shared), answered, shared, asking, effect);
      ReplyIsLearned(old(shared), shared, asking, effect, reply);
    }

    // ---------- Scanning ----------

    /**
     Asks the slots one after the other. The result is no snapshot: entry `i` is what slot `i`
     was when it took the request, one moment after another (the effects of `scan`).
     */
    method ListVmSlots(ghost task: Task) returns (result: Result<seq<SlotStatus>, PoolError>, ghost scan: Scan)
      requires Valid() && TaskOk(shared, task) && Scanning(task, [])
      modifies this
      ensures Valid() && Interfered(old(shared), shared) && deeds == old(deeds)
      ensures IsScan(scan) && scan.from == old(shared) && scan.until == shared
      ensures result.Ok? ==> IsWholeScan(scan) && result.value == scan.seen && TaskOk(shared, Scanned(task, scan.seen))
      // it stops at the first slot whose worker ended
      ensures result.Err? ==> result.error == ChannelClosed && StoppedAt(scan)
    {
      hide PoolOk, TaskOk, IsEffect, Interfered, IsScan;
      var statuses := [];
      EmptyScan(shared);
      InterferedReflexive(shared);
      scan := Scan(shared, [], [], shared);
      var slot := 0;
      while slot < |shared.slots|
        invariant slot == |statuses| <= |shared.slots| == |old(shared).slots|
        invariant Valid() && TaskOk(shared, Scanned(task, statuses)) && Interfered(old(shared), shared) && deeds == old(deeds)
        invariant IsScan(scan) && scan.from == old(shared) && scan.until == shared && scan.seen == statuses
        decreases |shared.slots| - slot
      {
        var next;
        next, scan := ScanNext(task, scan, slot);
        if next.None? {
          return Err(ChannelClosed), scan;
        }
        statuses := statuses + [next.value];
        slot := slot + 1;
      }
      ScanIsWhole(scan);
      return Ok(statuses), scan;
    }

    /** Asks the next slot of a scan. */
    method ScanNext(ghost task: Task, ghost scan: Scan, slot: nat) returns (next: Option<SlotStatus>, ghost scan': Scan)
      requires Valid() && slot < |shared.slots| && Scanning(task, []) && TaskOk(shared, Scanned(task, scan.seen))
      requires IsScan(scan) && scan.until == shared && |scan.seen| == slot
      modifies this
      ensures Valid() && Interfered(scan.from, shared) && |shared.slots| == |old(shared).slots| && deeds == old(deeds)
      ensures IsScan(scan') && scan'.from == scan.from && scan'.until == shared
      ensures match next
              case Some(status) => scan'.seen == scan.seen + [status] && TaskOk(shared, Scanned(task, scan'.seen))
              case None => scan'.seen == scan.seen && !shared.slots[slot].task.Running?
    {
      hide PoolOk, TaskOk, IsEffect, Interfered, IsScan;
      var reply;
      ghost var asking, effect;
      reply, asking, effect := Request(Scanned(task, scan.seen), slot, GetVmStatus);
      SameSize(old(shared), shared);
      if effect.Some? {
        StatusIsGiven(effect.value, reply);
        StatusScanned(shared, task, scan.seen, asking, reply.value);
        ScanGrows(scan, effect.value, reply.value, shared);
        scan' := Longer(scan, effect.value, reply.value, shared);
      } else {
        ScanWaits(scan, shared);
        scan' := scan.(until := shared);
      }
      ScanLasts(scan');
      next := if reply.Ok? then Some(reply.value) else None;
    }

    /** The first slot of a scan that carries the name. */
    method FindVmSlotStatusByName(name: string, ghost task: Task) returns (result: Result<Option<SlotStatus>, PoolError>, ghost scan: Scan)
      requires Valid() && TaskOk(shared, task) && task.call.None? && task.pc == FindByName([])
      modifies this
      ensures Valid() && Interfered(old(shared), shared) && deeds == old(deeds)
      ensures IsScan(scan) && scan.from == old(shared) && scan.until == shared
      ensures result.Ok? ==>
                && IsWholeScan(scan) && TaskOk(shared, task.(pc := FindByName(scan.seen)))
                && match FirstNamed(scan.seen, name)
                   case None => result.value == None && Unknown(shared, name)
                   case Some(i) => result.value == Some(scan.seen[i]) && FoundAlone(shared, name, scan.seen[i])
      ensures result.Ok? ==> NamesDiffer(scan.seen)
      ensures result.Err? ==> result.error == ChannelClosed && StoppedAt(scan)
    {
      hide PoolOk, TaskOk, IsEffect, Interfered, IsScan;
      var list;
      list, scan := ListVmSlots(task);
      if list.Err? {
        return Err(list.error), scan;
      }
      LookupIsExact(shared, task, list.value, name);
      WholeScanIsFull(scan);
      var found := FirstWithName(list.value, name);
      return Ok(found), scan;
    }

    /** The first status of a scan with this name. */
    static method FirstWithName(statuses: seq<SlotStatus>, name: string) returns (found: Option<SlotStatus>)
      ensures match FirstNamed(statuses, name)
              case None => found == None
              case Some(i) => found == Some(statuses[i])
    {
      var i := 0;
      while i < |statuses|
        invariant i <= |statuses|
        invariant forall k :: 0 <= k < i ==> statuses[k].name != Some(name)
      {
        if statuses[i].name == Some(name) {
          return Some(statuses[i]);
        }
        i := i + 1;
      }
      return None;
    }

    /** How many slots were in use, and how many idle, when they were asked. */
    method PoolUsage() returns (result: Result<(nat, nat), PoolError>, ghost scan: Scan)
      requires Valid()
      modifies this
      ensures Valid() && Interfered(old(shared), shared) && deeds == old(deeds)
      ensures IsScan(scan) && scan.from == old(shared) && scan.until == shared
      ensures result.Ok? ==>
                && IsWholeScan(scan)
                && result.value.0 + result.value.1 == |shared.slots|
                && result.value.1 == |set i | 0 <= i < |scan.seen| && scan.seen[i].state == Empty|
      ensures result.Err? ==> result.error == ChannelClosed && StoppedAt(scan)
    {
      hide PoolOk, TaskOk, IsEffect, Interfered, IsScan;
      ghost var task := Task(Proxy(""), FindByName([]), None, shared.nextTicket);
      ReadingIsOk(shared, task);
      var list;
      list, scan := ListVmSlots(task);
      if list.Err? {
        return Err(list.error), scan;
      }
      WholeScanIsFull(scan);
      var idle := CountEmpty(list.value);
      return Ok((|list.value| - idle, idle)), scan;
    }

    /** The slots before the n-th that replied empty. */
    ghost static function EmptyBefore(statuses: seq<SlotStatus>, n: nat): set<int>
      requires n <= |statuses|
    {
      set i | 0 <= i < n && statuses[i].state == Empty
    }

    static lemma EmptyNext(statuses: seq<SlotStatus>, n: nat)
      requires n < |statuses|
      ensures |EmptyBefore(statuses, n + 1)| == |EmptyBefore(statuses, n)| + (if statuses[n].state == Empty then 1 else 0)
    {
      if statuses[n].state == Empty {
        assert EmptyBefore(statuses, n + 1) == EmptyBefore(statuses, n) + {n};
      } else {
        assert EmptyBefore(statuses, n + 1) == EmptyBefore(statuses, n);
      }
    }

    static method CountEmpty(statuses: seq<SlotStatus>) returns (idle: nat)
      ensures idle == |set i | 0 <= i < |statuses| && statuses[i].state == Empty| <= |statuses|
    {
      hide EmptyBefore;
      var i := 0;
      idle := 0;
      NoneBefore(statuses);
      while i < |statuses|
        invariant i <= |statuses| && idle <= i
        invariant idle == |EmptyBefore(statuses, i)|
      {
        EmptyNext(statuses, i);
        if statuses[i].state == Empty {
          idle := idle + 1;
        }
        i := i + 1;
      }
      AllOfThem(statuses);
    }

    static lemma NoneBefore(statuses: seq<SlotStatus>)
      ensures EmptyBefore(statuses, 0) == {}
    {
    }

    static lemma AllOfThem(statuses: seq<SlotStatus>)
      ensures EmptyBefore(statuses, |statuses|) == set i | 0 <= i < |statuses| && statuses[i].state == Empty
    {
    }

    // ---------- Growing and allocating ----------

    /**
     Adds workers at the end; they are numbered on from the present size. It does not look at the
     maximal size, so the pool stays valid exactly when that is not exceeded, or no longer matters.
     */
    method Extend(additional: nat)
      requires Valid()
      modifies this
      ensures WorkersOk(shared) && (Valid() <==> shared.shutdown || |shared.slots| <= shared.config.max)
      ensures |shared.slots| == |old(shared).slots| + additional && shared.slots[..|old(shared).slots|] == old(shared).slots
      ensures forall i :: |old(shared).slots| <= i < |shared.slots| ==>
                shared.slots[i] == FreshWorker(old(shared).nextWorker + (i - |old(shared).slots|), i)
      ensures additional == 1 ==> shared == Moved(old(shared), Grow)
      ensures PoolEvolved(old(shared), shared) && deeds == old(deeds) + Times(Grew, additional)
    {
      hide PoolOk, PoolEvolved, WorkersOk;
      ValidIffNotTooLarge(shared);
      var done := 0;
      while done < additional
        invariant done <= additional && WorkersOk(shared)
        invariant shared.config == old(shared).config && shared.shutdown == old(shared).shutdown
        invariant shared.nextWorker == old(shared).nextWorker + done
        invariant |shared.slots| == |old(shared).slots| + done && shared.slots[..|old(shared).slots|] == old(shared).slots
        invariant forall i :: |old(shared).slots| <= i < |shared.slots| ==>
                    shared.slots[i] == FreshWorker(old(shared).nextWorker + (i - |old(shared).slots|), i)
        invariant done == 0 ==> shared == old(shared)
        invariant done == 1 ==> shared == Moved(old(shared), Grow)
        invariant shared.nextTicket == old(shared).nextTicket && deeds == old(deeds) + Times(Grew, done)
      {
        GrowKeepsWorkers(shared);
        shared := Moved(shared, Grow);
        deeds := deeds + [Grew];
        assert Times(Grew, done + 1) == Times(Grew, done) + [Grew];
        done := done + 1;
      }
      ValidIffNotTooLarge(shared);
      SameSlotsEvolve(old(shared), shared);
    }

    /** Asks a slot to take the name; the tap device is named after the slot. */
    method ReserveVmSlot(ghost task: Task, slot: nat, name: string, mac: string) returns (result: Reply, ghost effect: Option<Effect>)
      requires Valid() && TaskOk(shared, task) && task.call.None?
      requires task.job.Create? && task.job.name == name && task.job.mac == mac && task.pc == Reserve(slot)
      modifies this
      ensures Valid() && Interfered(old(shared), shared)
      ensures Did(old(deeds), deeds, slot, ReserveVm(name, mac, TapName(slot)), effect.Some?)
      ensures match effect
              case Some(e) =>
                && Performed(old(shared), e, shared) && e.slot == slot && e.command == ReserveVm(name, mac, TapName(slot))
                && EffectReply(e) == result
              case None => result == Err(ChannelClosed) && SomeoneEnded(shared)
      ensures result.Ok? ==>
                && slot < |shared.slots| && result.value.slot == slot
                && result.value.name == Some(name) && result.value.mac == Some(mac) && result.value.tap == Some(TapName(slot))
                && Since(result.value, shared.slots[slot].rt.status)
      ensures result.Err? ==> result.error.ChannelClosed? || result.error.InvalidTransition? || result.error.Backend?
    {
      hide PoolOk, IsEffect, Interfered;
      ReserveInRange(shared, task);
      ghost var asking;
      result, asking, effect := Request(task, slot, ReserveVm(name, mac, TapName(slot)));
      SameSize(old(shared), shared);
    }

    /** One round of an allocation: scan, and reserve the first slot seen empty. */
    method TryReserve(ghost task: Task, name: string, mac: string)
      returns (result: Option<Reply>, ghost scan: Scan, ghost effect: Option<Effect>)
      requires Valid() && TaskOk(shared, task) && Searching(task, name, mac)
      modifies this
      ensures Valid() && Interfered(old(shared), shared)
      ensures Tried(old(shared), scan, effect, shared, name, mac, result)
      ensures RoundDid(old(deeds), deeds, scan, effect, name, mac)
      ensures result.None? ==> TaskOk(shared, task.(pc := FindEmpty(scan.seen)))
    {
      hide PoolOk, TaskOk, IsEffect, Interfered, IsScan, Performed, FirstEmpty, TapName;
      effect := None;
      var list;
      list, scan := ListVmSlots(task);
      InterferedReflexive(shared);
      if list.Err? {
        return Some(Err(list.error)), scan, None;
      }
      WholeScanIsFull(scan);
      var slot := FirstEmpty(list.value);
      if slot.None? {
        return None, scan, None;
      }
      ReserveFollows(shared, task, list.value, slot.value);
      var reply;
      reply, effect := ReserveVmSlot(task.(pc := Reserve(slot.value)), slot.value, name, mac);
      InterferedTransitive(old(shared), scan.until, shared);
      return Some(reply), scan, effect;
    }

    /**
     Reserves an empty slot under a free name, growing the pool up to its maximum: by one slot after
     each whole scan that saw no empty one, and not otherwise. The slot reserved is the first one its
     last scan saw empty; the pool counts as exhausted only when a full scan of a pool of maximal
     size saw none. The names in the pool stay unique.
     */
    method AllocateVmSlot(name: string, mac: string, ghost restore: bool) returns (result: Reply, ghost run: Allocation)
      requires Valid()
      modifies this
      ensures Valid() && PoolEvolved(old(shared), shared)
      ensures |shared.slots| > |old(shared).slots| ==> |shared.slots| <= shared.config.max
      ensures Allocated(old(shared), run, shared, name, mac, result)
      ensures AllocationDid(old(deeds), deeds, run, name, mac)
    {
      hide PoolOk, TaskOk, IsEffect, Interfered, IsScan, PoolEvolved, Tried, Allocated, StillSearching, AllocationDid, RoundDid, Times;
      ghost var task := Creating(name, mac, restore, shared.nextTicket);
      CreatingIsOk(shared, name, mac, restore);
      var found;
      ghost var lookup;
      found, lookup := FindVmSlotStatusByName(name, task);
      SameSize(old(shared), shared);
      InterferedEvolves(old(shared), shared);
      run := Allocation(lookup, [], None);
      LookupDoesNothing(deeds, lookup, name, mac);
      if found.Err? {
        LookupFails(old(shared), run, shared, name, mac);
        return Err(found.error), run;
      }
      if found.value.Some? {
        NameIsTaken(old(shared), run, shared, name, mac);
        return Err(VmAlreadyRunning(name)), run;
      }
      NameIsFree(shared, task.(pc := FindByName(lookup.seen)));
      NowSearching(shared, task, lookup.seen);
      task := task.(pc := FindEmpty([]));
      SearchStarts(old(shared), lookup, name);
      result, run := SearchAndReserve(name, mac, task, old(shared), lookup);
    }

    /** The scans of an allocation that began with the pool `o`, once the lookup found its name free. */
    method SearchAndReserve(name: string, mac: string, ghost searching: Task, ghost o: Shared, ghost lookup: Scan)
      returns (result: Reply, ghost run: Allocation)
      requires Valid() && TaskOk(shared, searching) && Searching(searching, name, mac)
      requires StillSearching(o, lookup, [], shared, name) && PoolEvolved(o, shared) && |o.slots| == |shared.slots|
      modifies this
      ensures Valid() && PoolEvolved(o, shared)
      ensures |shared.slots| > |o.slots| ==> |shared.slots| <= shared.config.max
      ensures Allocated(o, run, shared, name, mac, result)
      ensures AllocationDid(old(deeds), deeds, run, name, mac)
    {
      hide PoolOk, TaskOk, IsEffect, Interfered, IsScan, PoolEvolved, Tried, Allocated, StillSearching, AllocationDid, RoundDid, Times;
      ghost var task := searching;
      ghost var scans := [];
      OneMore(deeds, Grew, 0);
      while true
        invariant Valid() && TaskOk(shared, task) && Searching(task, name, mac)
        invariant PoolEvolved(o, shared) && StillSearching(o, lookup, scans, shared, name)
        invariant |o.slots| <= |shared.slots| && deeds == old(deeds) + Times(Grew, |scans|)
        invariant |shared.slots| > |o.slots| ==> |shared.slots| <= shared.config.max
        decreases shared.config.max - |shared.slots|
      {
        ghost var start, did := shared, deeds;
        var reply;
        ghost var scan, effect;
        reply, scan, effect := TryReserve(task, name, mac);
        RoundEvolves(o, start, shared);
        run := Allocation(lookup, scans + [scan], effect);
        RoundIsLast(old(deeds), deeds, lookup, scans, scan, effect, name, mac);
        if reply.Some? {
          RoundDecides(o, lookup, scans, start, scan, effect, shared, name, mac, reply.value);
          return reply.value, run;
        }
        if |shared.slots| >= shared.config.max {
          PoolIsFull(o, lookup, scans, start, scan, effect, shared, name, mac);
          return Err(NoAvailableSlot), run;
        }
        ghost var before := shared;
        VainRoundDoesNothing(did, deeds, start, scan, effect, before, name, mac);
        Extend(1);
        PoolEvolvedTransitive(o, before, shared);
        SearchGoesOn(o, lookup, scans, start, scan, effect, before, name, mac);
        GrowDecided(before, task.(pc := FindEmpty(scan.seen)));
        OneMore(old(deeds), Grew, |scans|);
        scans := scans + [scan];
      }
    }

    // ---------- Other commands ----------

    /** The program of a task that holds the read guard and is about to send one command. */
    ghost predicate About(task: Task, slot: nat, command: Command)
      reads this
    {
      Valid() && TaskOk(shared, task) && task.call.None? && RequestAt(task, |shared.slots|) == Some((slot, command))
    }

    /** Marks the boot; in the booked generation the reply is the VM that was asked for, with its process. */
    method MarkVmSlotBooted(ghost task: Task, ghost booking: Booking, slot: nat, startedAt: string)
      returns (result: Reply, ghost effect: Option<Effect>)
      requires task.pc == Mark(booking, startedAt) && booking.slot == slot && About(task, slot, MarkVmBooted(startedAt))
      modifies this
      ensures Valid() && Interfered(old(shared), shared)
      ensures Did(old(deeds), deeds, slot, MarkVmBooted(startedAt), effect.Some?)
      ensures match effect
              case Some(e) => Performed(old(shared), e, shared) && e.slot == slot && e.command == MarkVmBooted(startedAt) && EffectReply(e) == result
              case None => Unserved(shared, slot, result)
      ensures result.Ok? ==> slot < |shared.slots| && Settled(task.job, booking, startedAt, shared.slots[slot].id, result.value)
      ensures result.Err? && effect.Some? ==> result.error.InvalidTransition?
    {
      hide PoolOk, IsEffect, Interfered;
      ghost var asking;
      result, asking, effect := Request(task, slot, MarkVmBooted(startedAt));
    }

    /** Releases a slot that was looked up by name; success means that very generation has ended and the name is free. */
    method ReleaseVmSlot(ghost task: Task, ghost target: SlotStatus, slot: nat) returns (result: Reply, ghost effect: Option<Effect>)
      requires task.pc == Release(target) && target.slot == slot && About(task, slot, ReleaseVm)
      modifies this
      ensures Valid() && Interfered(old(shared), shared)
      ensures Did(old(deeds), deeds, slot, ReleaseVm, effect.Some?)
      ensures match effect
              case Some(e) => Performed(old(shared), e, shared) && e.slot == slot && e.command == ReleaseVm && EffectReply(e) == result
              case None => result == Err(ChannelClosed) && SomeoneEnded(shared)
      ensures result.Ok? ==>
                && slot < |shared.slots| && result.value.state.Empty? && result.value.slot == slot
                && result.value.generation == target.generation + 1
                && Since(result.value, shared.slots[slot].rt.status)
                && target.name.Some? && NameIsGone(shared, target.name.value)
      ensures result.Err? && effect.Some? ==>
                result.error.InvalidTransition? && slot < |shared.slots| && Overtaken(target, shared.slots[slot].rt.status)
    {
      hide PoolOk, IsEffect, Interfered;
      TargetInRange(shared, task);
      ghost var asking;
      result, asking, effect := Request(task, slot, ReleaseVm);
      SameSize(old(shared), shared);
      if result.Ok? {
        ReleasedNameIsGone(shared, asking, target, result.value);
      }
    }

    /** Resets a slot; a reset is never refused. */
    method ResetVmSlot(ghost task: Task, slot: nat) returns (result: Reply, ghost effect: Option<Effect>)
      requires task.pc.Cleanup? && About(task, slot, ResetVm)
      modifies this
      ensures Valid() && Interfered(old(shared), shared)
      ensures Did(old(deeds), deeds, slot, ResetVm, effect.Some?)
      ensures match effect
              case Some(e) =>
                && Performed(old(shared), e, shared) && e.slot == slot && e.command == ResetVm && EffectReply(e) == result
                && result == Ok(Cleared(e.before.slots[slot].rt.status))
              case None => Unserved(shared, slot, result)
    {
      hide PoolOk, TaskOk, Interfered;
      ghost var asking;
      result, asking, effect := Request(task, slot, ResetVm);
    }

    // ---------- Shrinking ----------

    /** Lets a popped worker run, beside all others; it may or may not end within the given patience. */
    method AwaitWorker(popped: Worker, patience: nat, ghost task: Task) returns (w: Worker)
      requires Valid() && task == WithPopped(task, popped) && task.call.None? && TaskOk(shared, task)
      modifies this`shared
      ensures Valid() && Interfered(old(shared), shared)
      ensures w.id == popped.id && Since(popped.rt.status, w.rt.status) && TaskOk(shared, WithPopped(task, w))
    {
      hide PoolOk, TaskOk, Interfered, WorkerAfter, WorkerCan;
      InterferedReflexive(shared);
      w := popped;
      var left := patience;
      while left > 0 && w.task.Running?
        invariant Valid() && Interfered(old(shared), shared)
        invariant w.id == popped.id && Since(popped.rt.status, w.rt.status) && TaskOk(shared, WithPopped(task, w))
      {
        ghost var before := shared;
        Interfere(WithPopped(task, w), None);
        InterferedTransitive(old(shared), before, shared);
        var event: WorkerEvent := *;
        if WorkerCan(w, shared.shutdown, event) {
          PoppedMoves(shared, WithPopped(task, w), event);
          ghost var still := shared;
          AnswersInterfere(still, NewAnswers(w, event));
          shared := shared.(answers := shared.answers + NewAnswers(w, event));
          InterferedTransitive(old(shared), still, shared);
          SinceTransitive(popped.rt.status, w.rt.status, WorkerAfter(w, event).rt.status);
          w := WorkerAfter(w, event);
        }
        left := left - 1;
      }
    }

    /** Whether the tail slot answered that it is empty, and when it took the request. */
    method TailIsEmpty(ghost task: Task) returns (result: Result<bool, PoolError>, ghost answer: Option<Effect>)
      requires Valid() && |shared.slots| > 0 && TaskOk(shared, task) && task.call.None? && task.job.Autoscale?
      requires task.pc == AskTail(|shared.slots| - 1)
      modifies this
      ensures Valid() && Interfered(old(shared), shared) && deeds == old(deeds)
      ensures result == Ok(true) ==> TaskOk(shared, task.(pc := PopTail(|shared.slots| - 1)))
      ensures match result
              case Ok(empty) => answer.Some? && Performed(old(shared), answer.value, shared) && TailReplied(answer.value, |shared.slots|, empty)
              case Err(error) => answer.None? && error == ChannelClosed && !shared.slots[|shared.slots| - 1].task.Running?
    {
      hide PoolOk, TaskOk, Interfered, IsEffect;
      var reply;
      ghost var asking;
      reply, asking, answer := Request(task, |shared.slots| - 1, GetVmStatus);
      SameSize(old(shared), shared);
      if answer.Some? {
        StatusIsGiven(answer.value, reply);
      }
      if reply.Err? {
        return Err(reply.error), None;
      }
      TailLearned(shared, task, asking, reply.value);
      return Ok(reply.value.state == Empty), answer;
    }

    /**
     One tick of the autoscaler. `None` means that it is still waiting for the worker it popped.
     Above the minimal size and out of the cooldown it asks the last slot (`answer`) and shrinks if
     and only if that is empty. When it returns true the pool has lost exactly its last slot, which
     carried no VM and had no reservation queued; before shutdown this only happens when that
     worker failed.
     */
    method AutoscaleTick(patience: nat)
      returns (result: Option<Result<bool, PoolError>>, ghost removed: Option<Worker>, ghost answer: Option<Effect>)
      requires Valid()
      modifies this
      ensures Valid() && shared.config == old(shared).config
      // the last scale-down is less than the cooldown ago, or the pool has its minimal size
      ensures |old(shared).slots| <= shared.config.min ==> result == Some(Ok(false)) && shared == old(shared)
      ensures old(shared).lastScaleDown.Some? && old(shared).clock < old(shared).lastScaleDown.value + old(shared).config.cooldown ==>
                result == Some(Ok(false)) && shared == old(shared)
      // otherwise it asks the last slot
      ensures && |old(shared).slots| > old(shared).config.min
              && (old(shared).lastScaleDown.Some? ==> old(shared).lastScaleDown.value + old(shared).config.cooldown <= old(shared).clock) ==>
                match result
                case Some(Err(error)) =>
                  error == ChannelClosed && |shared.slots| == |old(shared).slots| && !shared.slots[|shared.slots| - 1].task.Running?
                case Some(Ok(shrunk)) => answer.Some? && TailReplied(answer.value, |old(shared).slots|, shrunk)
                case None => answer.Some? && TailReplied(answer.value, |old(shared).slots|, true)
      // the last slot took the request during the tick, and was popped after
      ensures answer.Some? ==>
                && IsEffect(answer.value) && Interfered(old(shared), answer.value.before) && old(shared).nextTicket <= answer.value.ticket
                && if removed.None? then Interfered(AfterEffect(answer.value), shared) else LostItsTail(AfterEffect(answer.value), shared)
      ensures removed.None? ==> Interfered(old(shared), shared)
      ensures deeds == if removed.Some? then old(deeds) + [TookOut] else old(deeds)
      ensures removed.Some? <==> result == Some(Ok(true)) || result == None
      ensures removed.Some? ==>
                && LostItsTail(old(shared), shared) && |shared.slots| >= shared.config.min
                && removed.value.id == old(shared).slots[|shared.slots|].id && Vacant(removed.value)
                && Since(old(shared).slots[|shared.slots|].rt.status, removed.value.rt.status)
      ensures result == Some(Ok(true)) ==>
                && shared.lastScaleDown == Some(shared.clock)
                && !removed.value.task.Running? && (!shared.shutdown ==> removed.value.task.Died?)
      ensures result != Some(Ok(true)) ==> shared.lastScaleDown == old(shared).lastScaleDown
    {
      hide TaskOk, PoolOk, IsEffect, Interfered, LostItsTail, Vacant, SomeoneEnded, TailReplied;
      removed, answer := None, None;
      InterferedReflexive(shared);
      if |shared.slots| <= shared.config.min {
        return Some(Ok(false)), None, None;
      }
      if CoolingDown(shared) {
        return Some(Ok(false)), None, None;
      }
      AskingTailIsOk(shared);
      ghost var task := Task(Autoscale, AskTail(|shared.slots| - 1), None, shared.nextTicket);
      var empty;
      empty, answer := TailIsEmpty(task);
      SameShape(old(shared), shared);
      if empty.Err? {
        return Some(Err(empty.error)), None, None;
      }
      if !empty.value {
        return Some(Ok(false)), None, answer;
      }
      ghost var asked := shared;
      var done;
      done, removed := ScaleDown(patience, task.(pc := PopTail(|shared.slots| - 1)));
      TickLoses(old(shared), answer.value, asked, shared, removed.value);
      return if done then Some(Ok(true)) else None, removed, answer;
    }

    /** Pops the tail and waits for its worker. */
    method ScaleDown(patience: nat, ghost task: Task) returns (done: bool, ghost removed: Option<Worker>)
      requires Valid() && |shared.slots| > 0 && TaskOk(shared, task) && task.call.None? && task.pc == PopTail(|shared.slots| - 1)
      modifies this
      ensures Valid() && shared.config == old(shared).config && deeds == old(deeds) + [TookOut]
      ensures LostItsTail(old(shared), shared) && |shared.slots| == |old(shared).slots| - 1 >= shared.config.min
      ensures removed.Some? && removed.value.id == old(shared).slots[|shared.slots|].id && Vacant(removed.value)
      ensures Since(old(shared).slots[|shared.slots|].rt.status, removed.value.rt.status)
      ensures done ==> shared.lastScaleDown == Some(shared.clock)
      ensures done ==> !removed.value.task.Running? && (!shared.shutdown ==> removed.value.task.Died?)
      ensures !done ==> shared.lastScaleDown == old(shared).lastScaleDown
    {
      hide PoolOk, TaskOk, LostItsTail, Vacant;
      var w := PopAndAwait(patience, task);
      removed := Some(w);
      done := !w.task.Running?;
      PoppedIsKnown(shared, task.(pc := JoinTail(w)), w);
      if done {
        JoinKeepsLoss(old(shared), shared, w.id);
        NoteJoin(w.id, task.(pc := JoinTail(w)));
      }
    }

    method PopAndAwait(patience: nat, ghost task: Task) returns (w: Worker)
      requires Valid() && |shared.slots| > 0 && TaskOk(shared, task) && task.call.None? && task.pc == PopTail(|shared.slots| - 1)
      modifies this
      ensures Valid() && LostItsTail(old(shared), shared) && |shared.slots| == |old(shared).slots| - 1 >= shared.config.min && deeds == old(deeds) + [TookOut]
      ensures shared.lastScaleDown == old(shared).lastScaleDown && shared.config == old(shared).config
      ensures w.id == old(shared).slots[|shared.slots|].id && TaskOk(shared, task.(pc := JoinTail(w)))
      ensures Since(old(shared).slots[|shared.slots|].rt.status, w.rt.status)
    {
      hide PoolOk, TaskOk, LostItsTail, Interfered;
      TailMayGo(shared, task);
      var popped := PopSlot(task);
      ghost var shorter := shared;
      PopLosesTail(old(shared));
      w := AwaitWorker(popped, patience, task.(pc := JoinTail(popped)));
      SameShape(shorter, shared);
      LostThenInterfered(old(shared), shorter, shared);
    }

    /** Takes the last handle out of the vector. */
    method PopSlot(ghost task: Task) returns (popped: Worker)
      requires Valid() && |shared.slots| > 0 && TaskOk(shared, task) && task.call.None?
      requires task.pc.PopTail? || task.pc.DrainPool?
      modifies this
      ensures Valid() && shared == Moved(old(shared), Pop) && popped == old(shared).slots[|old(shared).slots| - 1] && deeds == old(deeds) + [TookOut]
      ensures TaskOk(shared, task.(pc := if task.pc.PopTail? then JoinTail(popped) else JoinDrained(popped)))
    {
      popped := shared.slots[|shared.slots| - 1];
      PopIsFine(shared, task);
      shared := Moved(shared, Pop);
      deeds := deeds + [TookOut];
    }

    /** Records a finished scale-down. */
    method NoteJoin(worker: nat, ghost task: Task)
      requires Valid() && TaskOk(shared, task) && task.pc.JoinTail?
      modifies this`shared
      ensures Valid() && shared == Moved(old(shared), Join(true, worker))
    {
      hide PoolOk, TaskOk;
      MoveKeepsPool(shared, Join(true, worker));
      shared := Moved(shared, Join(true, worker));
    }

    // ---------- Starting and stopping ----------

    constructor (shared: Shared)
      requires PoolOk(shared)
      ensures Valid() && this.shared == shared && deeds == []
    {
      this.shared := shared;
      deeds := [];
    }

    /** Starts a pool of minimal size, one worker per slot; bounds that contradict each other are refused. */
    static method Spawn(min: nat, max: nat, cooldown: nat) returns (pool: Option<ProcessPool>)
      ensures pool.None? <==> max < min
      ensures pool.Some? ==>
                && fresh(pool.value) && pool.value.Valid() && pool.value.deeds == []
                && pool.value.shared == InitialSystem(Config(min, max, cooldown)).pool
                && |pool.value.shared.slots| == min && !pool.value.shared.shutdown && pool.value.shared.lastScaleDown.None?
                && forall i :: 0 <= i < min ==>
                     var w := pool.value.shared.slots[i];
                     && w.rt == Runtime(SlotStatus(i, 0, Empty, None, None, None, None, None, None), None, 0)
                     && w.id == i && w.mailbox == [] && w.task == Running
    {
      if max < min {
        return None;
      }
      var slots: seq<Worker> := [];
      var slot := 0;
      while slot < min
        invariant slot <= min && |slots| == slot
        invariant forall i :: 0 <= i < slot ==> slots[i] == FreshWorker(i, i)
      {
        slots := slots + [FreshWorker(slot, slot)];
        slot := slot + 1;
      }
      var config := Config(min, max, cooldown);
      InitialInv(config);
      assert slots == InitialSystem(config).pool.slots;
      var started := new ProcessPool(Shared(config, slots, map[], 0, min, 0, None, false, [], {}, 0, 0));
      return Some(started);
    }

    /** Waits for a popped worker and drops its handle. */
    method JoinPopped(popped: Worker, patience: nat, ghost task: Task) returns (ended: bool)
      requires Valid() && TaskOk(shared, task) && task.call.None? && task.pc == JoinDrained(popped)
      modifies this`shared
      ensures Valid() && shared.shutdown && Interfered(old(shared), shared.(joined := old(shared).joined))
      ensures shared.joined == if ended then old(shared).joined + {popped.id} else old(shared).joined
      ensures ended ==> TaskOk(shared, task.(pc := DrainPool))
    {
      hide PoolOk, TaskOk, Interfered;
      var w := AwaitWorker(popped, patience, task);
      SameShape(old(shared), shared);
      DrainingIsShutdown(shared, WithPopped(task, w));
      ended := !w.task.Running?;
      if ended {
        JoinIsFine(old(shared), shared, task, w);
        shared := Moved(shared, Join(false, w.id));
      }
    }

    /** Pops the last worker and joins it. */
    method DrainOne(patience: nat, ghost task: Task) returns (ended: bool)
      requires Valid() && |shared.slots| > 0 && TaskOk(shared, task) && task.call.None? && task.pc.DrainPool?
      modifies this
      ensures Valid() && shared.shutdown && LostItsTail(old(shared), shared) && deeds == old(deeds) + [TookOut]
      ensures |shared.slots| == |old(shared).slots| - 1
      ensures ended ==> shared.joined == old(shared).joined + {old(shared).slots[|shared.slots|].id} && TaskOk(shared, task)
    {
      hide PoolOk, TaskOk, Interfered, LostItsTail;
      var popped := PopSlot(task);
      ghost var shorter := shared;
      PopLosesTail(old(shared));
      ended := JoinPopped(popped, patience, task.(pc := JoinDrained(popped)));
      DrainLoses(old(shared), shorter, shared);
    }

    /**
     Announces shutdown and joins the workers from the last to the first; `true` means that the
     pool is empty and every worker it had was joined.
     */
    method Shutdown(patience: nat) returns (drained: bool)
      requires Valid()
      modifies this
      ensures Valid() && shared.shutdown && PoolEvolved(old(shared), shared)
      ensures |shared.slots| <= |old(shared).slots|
      ensures deeds == old(deeds) + [Announced] + Times(TookOut, |old(shared).slots| - |shared.slots|)
      ensures drained ==> shared.slots == [] && forall i :: 0 <= i < |old(shared).slots| ==> old(shared).slots[i].id in shared.joined
    {
      hide PoolOk, TaskOk, PoolEvolved;
      RaisedTask(shared);
      SameSlotsEvolve(shared, Moved(shared, RaiseShutdown));
      shared := Moved(shared, RaiseShutdown);
      deeds := deeds + [Announced];
      assert deeds + Times(TookOut, 0) == deeds;
      ghost var task := Task(Job.Shutdown, DrainPool, None, shared.nextTicket);
      while |shared.slots| > 0
        invariant Valid() && TaskOk(shared, task) && shared.shutdown && task.call.None? && task.pc.DrainPool?
        invariant |shared.slots| <= |old(shared).slots|
        invariant deeds == old(deeds) + [Announced] + Times(TookOut, |old(shared).slots| - |shared.slots|)
        invariant PoolEvolved(old(shared), shared)
        invariant forall i :: 0 <= i < |shared.slots| ==> shared.slots[i].id == old(shared).slots[i].id
        invariant forall i :: |shared.slots| <= i < |old(shared).slots| ==> old(shared).slots[i].id in shared.joined
        decreases |shared.slots|
      {
        ghost var before := shared;
        var ended := DrainOne(patience, task);
        LosingTailEvolves(before, shared);
        assert Times(TookOut, |old(shared).slots| - |shared.slots|) == Times(TookOut, |old(shared).slots| - |before.slots|) + [TookOut];
        PoolEvolvedTransitive(old(shared), before, shared);
        if !ended {
          return false;
        }
        assert before.slots[|shared.slots|].id == old(shared).slots[|shared.slots|].id;
      }
      return true;
    }
  }
}
