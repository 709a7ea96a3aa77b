/**
 Runs that show why some guarantees of the pool are conditional: a scale-down that waits for a
 worker that will not end, creates that mark, or clean up, a later reservation because they never
 compare generations after they let go of the lock, a delete whose cleanup ends another VM, and a
 generation that comes back after a worker failed.
 */
module PoolScenarios {
  import opened Slots
  import opened SlotSteps
  import opened Decimal
  import opened Protocol
  import opened Decisions
  import opened PoolTheorems

  ghost predicate Reachable(config: Config, s: System) {
    exists states, actions :: IsRun(config, states, actions) && states[|actions|] == s
  }

  /** These steps, one after the other, lead from `s` to `s'`. */
  ghost predicate LeadsTo(s: System, actions: seq<Action>, s': System)
    decreases |actions|
  {
    if |actions| == 0 then s == s'
    else Enabled(s, actions[0]) && LeadsTo(Step(s, actions[0]), actions[1..], s')
  }

  lemma ReachesNext(config: Config, s: System, a: Action)
    requires Reachable(config, s) && Enabled(s, a)
    ensures Reachable(config, Step(s, a))
  {
    var states, actions :| IsRun(config, states, actions) && states[|actions|] == s;
    var longer, more := states + [Step(s, a)], actions + [a];
    assert IsRun(config, longer, more) && longer[|more|] == Step(s, a);
  }

  // ---------- Scenes ----------

  /** A pool: its bounds, the workers of its slots, the number of the next worker, and when it was last scaled down. */
  datatype Scene = Scene(config: Config, ids: seq<nat>, next: nat, shrunk: Option<nat>)

  function Grown(scene: Scene): Scene {
    scene.(ids := scene.ids + [scene.next], next := scene.next + 1)
  }

  function Popped(scene: Scene): Scene
    requires |scene.ids| > 0
  {
    scene.(ids := scene.ids[..|scene.ids| - 1])
  }

  /** Running workers with these records and nothing queued. */
  function Idle(ids: seq<nat>, rts: seq<Runtime>): seq<Worker>
    requires |ids| == |rts|
  {
    seq(|rts|, i requires 0 <= i < |rts| => Worker(ids[i], rts[i], [], Running))
  }

  /** The slots are `rts` with nothing queued, and the tasks stand where `at` says, waiting for no answer. */
  ghost predicate Stands(s: System, scene: Scene, rts: seq<Runtime>, at: map<nat, (Job, Pc)>) {
    && Reachable(scene.config, s) && |scene.ids| == |rts|
    && s.pool.config == scene.config && s.pool.nextWorker == scene.next && s.pool.lastScaleDown == scene.shrunk && !s.pool.shutdown
    && s.pool.slots == Idle(scene.ids, rts)
    && s.tasks.Keys == at.Keys
    && forall t :: t in at ==> s.tasks[t].job == at[t].0 && s.tasks[t].pc == at[t].1 && s.tasks[t].call.None?
  }

  /** A pool of one slot as it starts. */
  function Alone(config: Config): Scene {
    Scene(config, [0], 1, None)
  }

  lemma Begin(config: Config) returns (s: System)
    requires config.min == 1 <= config.max
    ensures Stands(s, Alone(config), [InitialRuntime(0)], map[])
  {
    s := InitialSystem(config);
    var states: seq<System>, actions: seq<Action> := [s], [];
    assert IsRun(config, states, actions) && states[|actions|] == s;
    assert s.pool.slots == [FreshWorker(0, 0)] == Idle([0], [InitialRuntime(0)]);
  }

  lemma Come(s: System, scene: Scene, rts: seq<Runtime>, at: map<nat, (Job, Pc)>, t: nat, job: Job) returns (s': System)
    requires Stands(s, scene, rts, at) && t !in at
    ensures Stands(s', scene, rts, at[t := (job, Start)])
  {
    hide Reachable;
    ReachesNext(scene.config, s, Arrive(t, job));
    s' := Step(s, Arrive(t, job));
  }

  function Waiting(job: Job, pc: Pc): Task {
    Task(job, pc, None, 0)
  }

  /** Every task but `t` is outside the lock. */
  ghost predicate OthersOut(at: map<nat, (Job, Pc)>, t: nat) {
    forall u :: u in at && u != t ==> GuardOf(Waiting(at[u].0, at[u].1)).NoGuard?
  }

  lemma AllOut(s: System, scene: Scene, rts: seq<Runtime>, at: map<nat, (Job, Pc)>, t: nat, job: Job, pc: Pc)
    requires Stands(s, scene, rts, at[t := (job, pc)]) && OthersOut(at, t) && Entry(Waiting(job, pc)).Some?
    ensures forall u :: u in s.tasks ==> GuardOf(s.tasks[u]).NoGuard?
  {
    hide Reachable;
    forall u | u in s.tasks ensures GuardOf(s.tasks[u]).NoGuard? {
      if u != t {
        assert u in at && GuardOf(s.tasks[u]) == GuardOf(Waiting(at[u].0, at[u].1));
      }
    }
  }

  lemma Enter(s: System, scene: Scene, rts: seq<Runtime>, at: map<nat, (Job, Pc)>, t: nat, job: Job, pc: Pc, next: Pc) returns (s': System)
    requires Stands(s, scene, rts, at[t := (job, pc)]) && OthersOut(at, t)
    requires Entry(Waiting(job, pc)).Some? && Entry(Waiting(job, pc)).value.1 == next
    ensures Stands(s', scene, rts, at[t := (job, next)])
  {
    hide Reachable, OthersOut;
    AllOut(s, scene, rts, at, t, job, pc);
    assert Entry(s.tasks[t]) == Entry(Waiting(job, pc));
    ReachesNext(scene.config, s, Acquire(t));
    s' := Step(s, Acquire(t));
  }

  lemma IdleUpdate(ids: seq<nat>, rts: seq<Runtime>, i: nat, rt: Runtime)
    requires i < |rts| == |ids|
    ensures Idle(ids, rts)[i := Worker(ids[i], rt, [], Running)] == Idle(ids, rts[i := rt])
  {
  }

  /** Something happens to the child of slot `i`. */
  lemma Happen(s: System, scene: Scene, rts: seq<Runtime>, at: map<nat, (Job, Pc)>, i: nat, event: Event) returns (s': System)
    requires Stands(s, scene, rts, at) && i < |rts| && !event.Handle? && Possible(rts[i], event)
    ensures Stands(s', scene, rts[i := After(rts[i], event)], at)
  {
    hide Reachable;
    var own := Own(event);
    IdleUpdate(scene.ids, rts, i, After(rts[i], event));
    ReachesNext(scene.config, s, WorkerStep(i, own));
    s' := Step(s, WorkerStep(i, own));
    assert s'.pool.slots == Idle(scene.ids, rts)[i := Worker(scene.ids[i], After(rts[i], event), [], Running)];
  }

  /** A pool with these slots at time 0. */
  function Still(scene: Scene, rts: seq<Runtime>): Shared
    requires |scene.ids| == |rts|
  {
    Shared(scene.config, Idle(scene.ids, rts), map[], 0, scene.next, 0, scene.shrunk, false, [], {}, 0, 0)
  }

  /** What a program decides depends on the slots, and the autoscaler's also on when the pool was shrunk last. */
  lemma SamePlan(p: Shared, task: Task, scene: Scene, rts: seq<Runtime>, o: Oracle)
    requires |scene.ids| == |rts| && p.config == scene.config && p.slots == Idle(scene.ids, rts) && p.lastScaleDown == scene.shrunk
    requires task.call.None? && CanDecide(Still(scene, rts), Waiting(task.job, task.pc)) && (task.pc.CheckPool? ==> scene.shrunk.None?)
    ensures CanDecide(p, task) && Plan(p, task, o) == Plan(Still(scene, rts), Waiting(task.job, task.pc), o)
  {
  }

  lemma Choose(s: System, scene: Scene, rts: seq<Runtime>, at: map<nat, (Job, Pc)>, t: nat, job: Job, pc: Pc, o: Oracle, next: Pc)
      returns (s': System)
    requires Stands(s, scene, rts, at[t := (job, pc)]) && |scene.ids| == |rts| && CanDecide(Still(scene, rts), Waiting(job, pc))
    requires Plan(Still(scene, rts), Waiting(job, pc), o) == (next, Keep) && (pc.CheckPool? ==> scene.shrunk.None?)
    ensures Stands(s', scene, rts, at[t := (job, next)])
  {
    hide Step, Reachable;
    SamePlan(s.pool, s.tasks[t], scene, rts, o);
    ReachesNext(scene.config, s, Decide(t, o));
    s' := Step(s, Decide(t, o));
    DecisionIs(s, t, o);
  }

  /** A create that saw no empty slot grows the pool. */
  lemma Enlarge(s: System, scene: Scene, rts: seq<Runtime>, at: map<nat, (Job, Pc)>, t: nat, job: Job, seen: seq<SlotStatus>) returns (s': System)
    requires Stands(s, scene, rts, at[t := (job, FindEmpty(seen))]) && job.Create?
    requires |seen| == |rts| < scene.config.max && FirstEmpty(seen).None?
    ensures Stands(s', Grown(scene), rts + [InitialRuntime(|rts|)], at[t := (job, FindEmpty([]))])
  {
    hide Step, Reachable;
    SamePlan(s.pool, s.tasks[t], scene, rts, OK);
    ReachesNext(scene.config, s, Decide(t, OK));
    s' := Step(s, Decide(t, OK));
    DecisionIs(s, t, OK);
    assert s'.pool.slots == Idle(scene.ids, rts) + [FreshWorker(scene.next, |rts|)]
        == Idle(Grown(scene).ids, rts + [InitialRuntime(|rts|)]);
  }

  // ---------- Requests ----------

  /** The slot with one command queued. */
  function Asked(ids: seq<nat>, rts: seq<Runtime>, i: nat, ticket: nat, command: Command): seq<Worker>
    requires i < |rts| == |ids|
  {
    Idle(ids, rts)[i := Worker(ids[i], rts[i], [Envelope(ticket, command)], Running)]
  }

  lemma Post(s: System, scene: Scene, rts: seq<Runtime>, at: map<nat, (Job, Pc)>, t: nat, i: nat, command: Command) returns (s': System)
    requires Stands(s, scene, rts, at) && t in at && i < |rts| == |scene.ids|
    requires RequestAt(Waiting(at[t].0, at[t].1), |rts|) == Some((i, command))
    ensures Reachable(scene.config, s') && Enabled(s, Send(t)) && s' == Step(s, Send(t))
    ensures s' == System(Posted(s.pool, i, command), s.tasks[t := s.tasks[t].(call := Some(Call(s.pool.nextTicket, i, command)))])
    ensures s'.pool.slots == Asked(scene.ids, rts, i, s.pool.nextTicket, command)
  {
    hide Reachable;
    assert RequestAt(s.tasks[t], |rts|) == RequestAt(Waiting(at[t].0, at[t].1), |rts|);
    ReachesNext(scene.config, s, Send(t));
    s' := Step(s, Send(t));
    assert [] + [Envelope(s.pool.nextTicket, command)] == [Envelope(s.pool.nextTicket, command)];
  }

  lemma Serve(s: System, scene: Scene, rts: seq<Runtime>, i: nat, ticket: nat, command: Command) returns (s': System)
    requires Reachable(scene.config, s) && i < |rts| == |scene.ids| && s.pool.slots == Asked(scene.ids, rts, i, ticket, command)
    ensures Reachable(scene.config, s') && Enabled(s, WorkerStep(i, Take(None))) && s' == Step(s, WorkerStep(i, Take(None)))
    ensures s'.tasks == s.tasks && s'.pool.slots == Idle(scene.ids, rts[i := Handled(rts[i], command, None)])
    ensures s'.pool.config == s.pool.config && s'.pool.nextWorker == s.pool.nextWorker
    ensures s'.pool.lastScaleDown == s.pool.lastScaleDown && s'.pool.shutdown == s.pool.shutdown
    ensures ticket in s'.pool.answers && s'.pool.answers[ticket] == Answer(scene.ids[i], ReplyTo(rts[i], command, None))
  {
    hide Reachable;
    var take := Take(None);
    IdleUpdate(scene.ids, rts, i, Handled(rts[i], command, None));
    ReachesNext(scene.config, s, WorkerStep(i, take));
    s' := Step(s, WorkerStep(i, take));
    assert [Envelope(ticket, command)][1..] == [];
    assert s'.pool.slots == Idle(scene.ids, rts)[i := WorkerAfter(s.pool.slots[i], take)];
  }

  lemma Collect(s: System, config: Config, t: nat) returns (s': System)
    requires Reachable(config, s) && Enabled(s, Receive(t))
    ensures Reachable(config, s') && s' == Step(s, Receive(t)) && s'.pool == s.pool
    ensures s'.tasks == s.tasks[t := s.tasks[t].(pc := OnAnswer(s.tasks[t], s.pool.answers[s.tasks[t].call.value.ticket]), call := None)]
  {
    hide Reachable;
    ReachesNext(config, s, Receive(t));
    s' := Step(s, Receive(t));
  }

  lemma AnswerIgnoresCall(task: Task, answer: Answer)
    ensures OnAnswer(task, answer) == OnAnswer(Waiting(task.job, task.pc), answer)
  {
  }

  /** The steps of a request: send it, let the worker handle it, receive the answer. */
  function RequestSteps(t: nat, i: nat): seq<Action> {
    [Send(t), WorkerStep(i, Take(None)), Receive(t)]
  }

  lemma ThreeSteps(s: System, s1: System, s2: System, s3: System, t: nat, i: nat)
    requires Enabled(s, Send(t)) && s1 == Step(s, Send(t))
    requires Enabled(s1, WorkerStep(i, Take(None))) && s2 == Step(s1, WorkerStep(i, Take(None)))
    requires Enabled(s2, Receive(t)) && s3 == Step(s2, Receive(t))
    ensures LeadsTo(s, RequestSteps(t, i), s3)
  {
    hide Enabled, Step;
    var steps := RequestSteps(t, i);
    assert steps[1..][0] == WorkerStep(i, Take(None)) && steps[1..][1..][0] == Receive(t) && steps[1..][1..][1..] == [];
    assert LeadsTo(s3, [], s3);
    assert LeadsTo(s2, steps[1..][1..], s3);
    assert LeadsTo(s1, steps[1..], s3);
  }

  lemma StandsNext(s: System, s': System, scene: Scene, rts: seq<Runtime>, rts': seq<Runtime>, at: map<nat, (Job, Pc)>, t: nat, job: Job, pc: Pc, next: Pc)
    requires Stands(s, scene, rts, at[t := (job, pc)]) && Reachable(scene.config, s') && |rts'| == |rts| == |scene.ids|
    requires s'.pool.config == scene.config && s'.pool.nextWorker == scene.next && s'.pool.slots == Idle(scene.ids, rts')
    requires s'.pool.lastScaleDown == scene.shrunk && !s'.pool.shutdown
    requires t in s'.tasks && s'.tasks == s.tasks[t := s'.tasks[t]]
    requires s'.tasks[t].job == job && s'.tasks[t].pc == next && s'.tasks[t].call.None?
    ensures Stands(s', scene, rts', at[t := (job, next)])
  {
    hide Reachable;
  }

  /** Sends the command the task is about to send, lets the worker handle it, and receives the answer. */
  lemma Ask(s: System, scene: Scene, rts: seq<Runtime>, at: map<nat, (Job, Pc)>, t: nat, job: Job, pc: Pc, i: nat, command: Command, next: Pc)
      returns (s': System)
    requires Stands(s, scene, rts, at[t := (job, pc)]) && i < |rts| == |scene.ids|
    requires RequestAt(Waiting(job, pc), |rts|) == Some((i, command))
    requires next == OnAnswer(Waiting(job, pc), Answer(scene.ids[i], ReplyTo(rts[i], command, None)))
    ensures Stands(s', scene, rts[i := Handled(rts[i], command, None)], at[t := (job, next)])
    ensures LeadsTo(s, RequestSteps(t, i), s')
  {
    hide Step, LeadsTo, Reachable;
    var s1 := Post(s, scene, rts, at[t := (job, pc)], t, i, command);
    var s2 := Serve(s1, scene, rts, i, s.pool.nextTicket, command);
    AnswerIgnoresCall(s2.tasks[t], Answer(scene.ids[i], ReplyTo(rts[i], command, None)));
    s' := Collect(s2, scene.config, t);
    ThreeSteps(s, s1, s2, s', t, i);
    StandsNext(s, s', scene, rts, rts[i := Handled(rts[i], command, None)], at, t, job, pc, next);
  }

  /** A status request leaves the slots as they are. */
  lemma AskStatus(s: System, scene: Scene, rts: seq<Runtime>, at: map<nat, (Job, Pc)>, t: nat, job: Job, pc: Pc, i: nat, next: Pc)
      returns (s': System)
    requires Stands(s, scene, rts, at[t := (job, pc)]) && i < |rts| == |scene.ids|
    requires RequestAt(Waiting(job, pc), |rts|) == Some((i, GetVmStatus))
    requires next == OnStatus(Waiting(job, pc), scene.ids[i], rts[i].status)
    ensures Stands(s', scene, rts, at[t := (job, next)])
  {
    hide Stands;
    assert rts[i := rts[i]] == rts;
    s' := Ask(s, scene, rts, at, t, job, pc, i, GetVmStatus, next);
  }

  const OK: Oracle := Oracle(true, false, HttpStatus(200), "now")

  const REJECTED: Oracle := Oracle(true, false, HttpStatus(500), "now")

  // ---------- Creates ----------

  lemma CheckName(s: System, scene: Scene, rt: Runtime, at: map<nat, (Job, Pc)>, t: nat, job: Job) returns (s': System)
    requires Stands(s, scene, [rt], at[t := (job, Start)]) && OthersOut(at, t) && |scene.ids| == 1
    requires job.Create? && rt.status.name != Some(job.name)
    ensures Stands(s', scene, [rt], at[t := (job, FindEmpty([]))])
  {
    hide Stands;
    var one := [rt.status];
    assert [] + [rt.status] == one;
    s' := Enter(s, scene, [rt], at, t, job, Start, FindByName([]));
    s' := AskStatus(s', scene, [rt], at, t, job, FindByName([]), 0, FindByName(one));
    s' := Choose(s', scene, [rt], at, t, job, FindByName(one), OK, FindEmpty([]));
  }

  function Reserved(rt: Runtime, i: nat, job: Job): Runtime
    requires job.Create?
  {
    Handled(rt, ReserveVm(job.name, job.mac, TapName(i)), None)
  }

  /** A create that finds the only slot empty reserves it. */
  lemma Allocate(s: System, scene: Scene, rt: Runtime, at: map<nat, (Job, Pc)>, t: nat, job: Job) returns (s': System)
    requires Stands(s, scene, [rt], at[t := (job, Start)]) && OthersOut(at, t) && job.Create? && |scene.ids| == 1
    requires rt.status.state.Empty? && rt.status.name.None? && rt.status.slot == 0
    ensures Stands(s', scene, [Reserved(rt, 0, job)],
                   at[t := (job, ReadyWait(Booking(0, scene.ids[0], rt.status.generation + 1), None))])
  {
    hide Stands, OthersOut, Admits, Reachable, LeadsTo, TapName;
    var one := [rt.status];
    assert [] + [rt.status] == one;
    s' := CheckName(s, scene, rt, at, t, job);
    s' := AskStatus(s', scene, [rt], at, t, job, FindEmpty([]), 0, FindEmpty(one));
    s' := Choose(s', scene, [rt], at, t, job, FindEmpty(one), OK, Reserve(0));
    s' := Ask(s', scene, [rt], at, t, job, Reserve(0), 0, ReserveVm(job.name, job.mac, TapName(0)),
              ReadyWait(Booking(0, scene.ids[0], rt.status.generation + 1), None));
    assert [rt][0 := Reserved(rt, 0, job)] == [Reserved(rt, 0, job)];
  }

  /** A create that finds the only slot taken grows the pool. */
  lemma Outgrow(s: System, scene: Scene, rt: Runtime, at: map<nat, (Job, Pc)>, t: nat, job: Job) returns (s': System)
    requires Stands(s, scene, [rt], at[t := (job, Start)]) && OthersOut(at, t) && job.Create? && |scene.ids| == 1 < scene.config.max
    requires !rt.status.state.Empty? && rt.status.name != Some(job.name)
    ensures Stands(s', Grown(scene), [rt, InitialRuntime(1)], at[t := (job, FindEmpty([]))])
  {
    hide Stands;
    assert [] + [rt.status] == [rt.status];
    s' := CheckName(s, scene, rt, at, t, job);
    s' := AskStatus(s', scene, [rt], at, t, job, FindEmpty([]), 0, FindEmpty([rt.status]));
    s' := Enlarge(s', scene, [rt], at, t, job, [rt.status]);
    assert [rt] + [InitialRuntime(1)] == [rt, InitialRuntime(1)];
  }

  lemma FirstEmptyOfPair(a: SlotStatus, b: SlotStatus)
    requires !a.state.Empty? && b.state.Empty?
    ensures FirstEmpty([a, b]) == Some(1)
  {
    assert [a, b][1..] == [b];
  }

  /** It scans both slots and reserves the new one. */
  lemma TakeTail(s: System, scene: Scene, a: Runtime, b: Runtime, at: map<nat, (Job, Pc)>, t: nat, job: Job) returns (s': System)
    requires Stands(s, scene, [a, b], at[t := (job, FindEmpty([]))]) && job.Create? && |scene.ids| == 2
    requires !a.status.state.Empty? && b.status.state.Empty? && b.status.slot == 1
    ensures Stands(s', scene, [a, Reserved(b, 1, job)],
                   at[t := (job, ReadyWait(Booking(1, scene.ids[1], b.status.generation + 1), None))])
  {
    hide Stands;
    var rts, seen := [a, b], [a.status, b.status];
    assert [] + [a.status] == [a.status] && [a.status] + [b.status] == seen;
    s' := AskStatus(s, scene, rts, at, t, job, FindEmpty([]), 0, FindEmpty([a.status]));
    s' := AskStatus(s', scene, rts, at, t, job, FindEmpty([a.status]), 1, FindEmpty(seen));
    FirstEmptyOfPair(a.status, b.status);
    s' := Choose(s', scene, rts, at, t, job, FindEmpty(seen), OK, Reserve(1));
    s' := Ask(s', scene, rts, at, t, job, Reserve(1), 1, ReserveVm(job.name, job.mac, TapName(1)),
              ReadyWait(Booking(1, scene.ids[1], b.status.generation + 1), None));
    assert rts[1 := Reserved(b, 1, job)] == [a, Reserved(b, 1, job)];
  }

  /** A create that finds the only slot taken grows the pool and reserves the new slot. */
  lemma AllocateNew(s: System, scene: Scene, rt: Runtime, at: map<nat, (Job, Pc)>, t: nat, job: Job) returns (s': System)
    requires Stands(s, scene, [rt], at[t := (job, Start)]) && OthersOut(at, t) && job.Create? && |scene.ids| == 1 < scene.config.max
    requires !rt.status.state.Empty? && rt.status.name != Some(job.name)
    ensures Stands(s', Grown(scene), [rt, Reserved(InitialRuntime(1), 1, job)],
                   at[t := (job, ReadyWait(Booking(1, scene.next, 1), None))])
  {
    hide Stands;
    s' := Outgrow(s, scene, rt, at, t, job);
    s' := TakeTail(s', Grown(scene), rt, InitialRuntime(1), at, t, job);
  }

  /** Waiting until the slot has a process and its socket answers. */
  lemma AwaitReady(s: System, scene: Scene, rts: seq<Runtime>, at: map<nat, (Job, Pc)>, t: nat, job: Job, booking: Booking, booted: Option<string>)
      returns (s': System)
    requires Stands(s, scene, rts, at[t := (job, ReadyWait(booking, booted))]) && OthersOut(at, t)
    requires booking.slot < |rts| == |scene.ids| && rts[booking.slot].status.pid.Some?
    ensures Stands(s', scene, rts, at[t := (job, if booted.None? then PutCreateWait(booking, "now") else MarkWait(booking, booted.value))])
  {
    hide Stands;
    s' := Enter(s, scene, rts, at, t, job, ReadyWait(booking, booted), ReadyAsk(booking, booted));
    s' := AskStatus(s', scene, rts, at, t, job, ReadyAsk(booking, booted), booking.slot, ReadySeen(booking, booted, true));
    s' := Choose(s', scene, rts, at, t, job, ReadySeen(booking, booted, true), OK,
                 if booted.None? then PutCreateWait(booking, "now") else MarkWait(booking, booted.value));
  }

  /** A create up to the request that creates its VM. */
  lemma Creates(s: System, scene: Scene, rts: seq<Runtime>, at: map<nat, (Job, Pc)>, t: nat, job: Job, booking: Booking) returns (s': System)
    requires Stands(s, scene, rts, at[t := (job, ReadyWait(booking, None))]) && OthersOut(at, t)
    requires booking.slot < |rts| == |scene.ids| && rts[booking.slot].status.pid.Some?
    ensures Stands(s', scene, rts, at[t := (job, PutCreate(booking, "now"))])
  {
    hide Stands;
    s' := AwaitReady(s, scene, rts, at, t, job, booking, None);
    s' := Enter(s', scene, rts, at, t, job, PutCreateWait(booking, "now"), PutCreate(booking, "now"));
  }

  /** A create that restores its VM, up to the point where it is about to mark the boot. */
  lemma Boots(s: System, scene: Scene, rts: seq<Runtime>, at: map<nat, (Job, Pc)>, t: nat, job: Job, booking: Booking) returns (s': System)
    requires Stands(s, scene, rts, at[t := (job, ReadyWait(booking, None))]) && OthersOut(at, t) && job.Create? && job.restore
    requires booking.slot < |rts| == |scene.ids| && rts[booking.slot].status.pid.Some?
    ensures Stands(s', scene, rts, at[t := (job, MarkWait(booking, "now"))])
  {
    hide Stands;
    s' := Creates(s, scene, rts, at, t, job, booking);
    s' := Choose(s', scene, rts, at, t, job, PutCreate(booking, "now"), OK, ReadyWait(booking, Some("now")));
    s' := AwaitReady(s', scene, rts, at, t, job, booking, Some("now"));
  }

  function Marked(rt: Runtime): Runtime {
    Handled(rt, MarkVmBooted("now"), None)
  }

  lemma Marks(s: System, scene: Scene, rts: seq<Runtime>, at: map<nat, (Job, Pc)>, t: nat, job: Job, booking: Booking) returns (s': System)
    requires Stands(s, scene, rts, at[t := (job, MarkWait(booking, "now"))]) && OthersOut(at, t)
    requires booking.slot < |rts| == |scene.ids| && rts[booking.slot].status.state.Booting?
    ensures var rt := Marked(rts[booking.slot]);
            Stands(s', scene, rts[booking.slot := rt], at[t := (job, Done(Created(booking, "now", scene.ids[booking.slot], rt.status)))])
  {
    hide Stands;
    var i := booking.slot;
    s' := Enter(s, scene, rts, at, t, job, MarkWait(booking, "now"), Mark(booking, "now"));
    s' := Ask(s', scene, rts, at, t, job, Mark(booking, "now"), i, MarkVmBooted("now"),
              Done(Created(booking, "now", scene.ids[i], Marked(rts[i]).status)));
  }

  /** A task that is about to clean up resets the only slot. */
  lemma CleansUp(s: System, scene: Scene, rt: Runtime, at: map<nat, (Job, Pc)>, t: nat, job: Job, booked: Option<Booking>)
      returns (before: System, after: System)
    requires Stands(s, scene, [rt], at[t := (job, CleanupWait(0, booked))]) && OthersOut(at, t) && |scene.ids| == 1 && !job.Autoscale?
    ensures Stands(before, scene, [rt], at[t := (job, Cleanup(0, booked))])
    ensures LeadsTo(before, RequestSteps(t, 0), after)
    ensures Stands(after, scene, [Freed(rt)], at[t := (job, Done(BackendError))])
  {
    hide Stands;
    before := Enter(s, scene, [rt], at, t, job, CleanupWait(0, booked), Cleanup(0, booked));
    after := Ask(before, scene, [rt], at, t, job, Cleanup(0, booked), 0, ResetVm, Done(BackendError));
    assert [rt][0 := Freed(rt)] == [Freed(rt)];
  }

  // ---------- Two creates, one slot ----------

  /** A pool of one slot. */
  const SINGLE: Config := Config(1, 1, 1)

  const FIRST: Job := Create("a", "mac-a", true)

  const SECOND: Job := Create("b", "mac-b", true)

  /** The slot as the first create reserves it, and as the second one does after the first VM's process ended. */
  function FirstReserved(): Runtime {
    Reserved(After(InitialRuntime(0), SpawnOk(100)), 0, FIRST)
  }

  function SecondReserved(): Runtime {
    Reserved(After(After(FirstReserved(), ChildExited), SpawnOk(101)), 0, SECOND)
  }

  const FIRST_BOOKING: Booking := Booking(0, 0, 1)

  /** Where the first create stands, and nobody else is there. */
  function OnlyFirst(pc: Pc): map<nat, (Job, Pc)> {
    map[0 := (FIRST, pc)]
  }

  /** The slot changes alone, in a pool of one. */
  lemma HappenAlone(s: System, scene: Scene, rt: Runtime, at: map<nat, (Job, Pc)>, event: Event) returns (s': System)
    requires Stands(s, scene, [rt], at) && !event.Handle? && Possible(rt, event)
    ensures Stands(s', scene, [After(rt, event)], at)
  {
    hide Stands;
    s' := Happen(s, scene, [rt], at, 0, event);
    assert [rt][0 := After(rt, event)] == [After(rt, event)];
  }

  lemma FirstReserves(config: Config) returns (s: System)
    requires config.min == 1 <= config.max
    ensures Stands(s, Alone(config), [FirstReserved()], OnlyFirst(ReadyWait(FIRST_BOOKING, None)))
  {
    hide Stands;
    var rt := After(InitialRuntime(0), SpawnOk(100));
    s := Begin(config);
    s := HappenAlone(s, Alone(config), InitialRuntime(0), map[], SpawnOk(100));
    s := Come(s, Alone(config), [rt], map[], 0, FIRST);
    s := Allocate(s, Alone(config), rt, map[], 0, FIRST);
    assert map[][0 := (FIRST, ReadyWait(FIRST_BOOKING, None))] == OnlyFirst(ReadyWait(FIRST_BOOKING, None));
  }

  /** Everybody else, and the second create where it waits for the VM of its reservation. */
  function WithSecond(at: map<nat, (Job, Pc)>): map<nat, (Job, Pc)> {
    at[1 := (SECOND, ReadyWait(Booking(0, 0, 3), None))]
  }

  /** The first VM's process ends, the slot starts a new one, and the second create reserves the slot. */
  lemma Overtaken(s: System, rt: Runtime, at: map<nat, (Job, Pc)>) returns (s': System)
    requires Stands(s, Alone(SINGLE), [rt], at) && 1 !in at && OthersOut(at, 1)
    requires rt.child.Some? && After(rt, ChildExited) == After(FirstReserved(), ChildExited)
    ensures Stands(s', Alone(SINGLE), [SecondReserved()], WithSecond(at))
  {
    hide Stands;
    s' := HappenAlone(s, Alone(SINGLE), rt, at, ChildExited);
    s' := HappenAlone(s', Alone(SINGLE), After(rt, ChildExited), at, SpawnOk(101));
    var empty := After(After(rt, ChildExited), SpawnOk(101));
    s' := Come(s', Alone(SINGLE), [empty], at, 1, SECOND);
    s' := Allocate(s', Alone(SINGLE), empty, at, 1, SECOND);
  }

  /** Where a task stands. */
  lemma Standing(s: System, scene: Scene, rts: seq<Runtime>, at: map<nat, (Job, Pc)>, t: nat)
    requires Stands(s, scene, rts, at) && t in at
    ensures Reachable(scene.config, s) && !s.pool.shutdown && t in s.tasks && s.tasks[t].job == at[t].0 && s.tasks[t].pc == at[t].1
  {
  }

  lemma SecondIsMarked()
    ensures SecondReserved().status.state.Booting? && SecondReserved().status.generation == 3 && SecondReserved().status.name == Some("b")
    ensures Marked(SecondReserved()).status == SlotStatus(0, 3, Occupied, Some("b"), Some("mac-b"), Some(TapName(0)), Some(101), Some("now"), None)
  {
  }

  /** The first create in `pc`, next to the second one: the same map either way. */
  lemma FirstAndSecond(pc: Pc, next: Pc)
    ensures WithSecond(OnlyFirst(pc))[0 := (FIRST, next)] == WithSecond(OnlyFirst(next))
  {
  }

  lemma FirstBoots() returns (s: System)
    ensures Stands(s, Alone(SINGLE), [FirstReserved()], OnlyFirst(MarkWait(FIRST_BOOKING, "now")))
  {
    hide Stands;
    s := FirstReserves(SINGLE);
    assert map[][0 := (FIRST, ReadyWait(FIRST_BOOKING, None))] == OnlyFirst(ReadyWait(FIRST_BOOKING, None));
    s := Boots(s, Alone(SINGLE), [FirstReserved()], map[], 0, FIRST, FIRST_BOOKING);
    assert map[][0 := (FIRST, MarkWait(FIRST_BOOKING, "now"))] == OnlyFirst(MarkWait(FIRST_BOOKING, "now"));
  }

  /**
   A create can succeed with a VM that is not the one it was asked for: between its wait and its
   mark the process of its VM ended and another create reserved the slot. The mark is then
   applied in another generation than the booked one.
   */
  lemma CreateCanReturnAnotherVm() returns (s: System)
    ensures Reachable(SINGLE, s) && 0 in s.tasks && s.tasks[0].job == FIRST
    ensures s.tasks[0].pc.Done? && s.tasks[0].pc.outcome.Created?
    ensures var outcome := s.tasks[0].pc.outcome;
            && TryIntoRuntime(outcome.status).Ok?
            && TryIntoRuntime(outcome.status).value.name != FIRST.name
            && outcome.worker == outcome.booking.worker
            && outcome.status.generation != outcome.booking.generation
  {
    hide Stands;
    var wait := MarkWait(FIRST_BOOKING, "now");
    s := FirstBoots();
    s := Overtaken(s, FirstReserved(), OnlyFirst(wait));
    SecondIsMarked();
    FirstAndSecond(wait, wait);
    s := Marks(s, Alone(SINGLE), [SecondReserved()], WithSecond(OnlyFirst(wait)), 0, FIRST, FIRST_BOOKING);
    Standing(s, Alone(SINGLE), [SecondReserved()][0 := Marked(SecondReserved())],
             WithSecond(OnlyFirst(wait))[0 := (FIRST, Done(Created(FIRST_BOOKING, "now", 0, Marked(SecondReserved()).status)))], 0);
  }

  lemma RejectedThenOvertaken() returns (s: System)
    ensures Stands(s, Alone(SINGLE), [SecondReserved()], WithSecond(OnlyFirst(CleanupWait(0, Some(FIRST_BOOKING)))))
  {
    hide Stands;
    var wait := CleanupWait(0, Some(FIRST_BOOKING));
    s := FirstReserves(SINGLE);
    assert map[][0 := (FIRST, ReadyWait(FIRST_BOOKING, None))] == OnlyFirst(ReadyWait(FIRST_BOOKING, None));
    s := Creates(s, Alone(SINGLE), [FirstReserved()], map[], 0, FIRST, FIRST_BOOKING);
    s := Choose(s, Alone(SINGLE), [FirstReserved()], map[], 0, FIRST, PutCreate(FIRST_BOOKING, "now"), REJECTED, wait);
    assert map[][0 := (FIRST, wait)] == OnlyFirst(wait);
    s := Overtaken(s, FirstReserved(), OnlyFirst(wait));
  }

  /**
   The cleanup after a refused request can reset another VM: the guard is dropped before the
   reset is sent, and meanwhile another create reserved the slot. From there three steps, the
   request of the first create, end the VM of the second.
   */
  lemma CleanupCanResetAnotherVm() returns (before: System, after: System)
    ensures Stands(before, Alone(SINGLE), [SecondReserved()], WithSecond(OnlyFirst(Cleanup(0, Some(FIRST_BOOKING)))))
    ensures SecondReserved().status.name == Some(SECOND.name) && SecondReserved().status.generation == 3
    ensures LeadsTo(before, RequestSteps(0, 0), after)
    ensures Stands(after, Alone(SINGLE), [Freed(SecondReserved())], WithSecond(OnlyFirst(Done(BackendError))))
  {
    hide Stands;
    var wait := CleanupWait(0, Some(FIRST_BOOKING));
    SecondIsMarked();
    before := RejectedThenOvertaken();
    FirstAndSecond(wait, wait);
    FirstAndSecond(wait, Cleanup(0, Some(FIRST_BOOKING)));
    FirstAndSecond(wait, Done(BackendError));
    before, after := CleansUp(before, Alone(SINGLE), SecondReserved(), WithSecond(OnlyFirst(wait)), 0, FIRST, Some(FIRST_BOOKING));
  }

  // ---------- A delete and a create, one slot ----------

  const DELETE: Job := Delete("a")

  /** The first create is done, and the delete of its VM stands here. */
  function WithDelete(pc: Pc): map<nat, (Job, Pc)> {
    map[0 := (FIRST, Done(Created(FIRST_BOOKING, "now", 0, Marked(FirstReserved()).status))), 2 := (DELETE, pc)]
  }

  const BEFORE_DELETE: map<nat, (Job, Pc)> := map[0 := (FIRST, Done(Created(FIRST_BOOKING, "now", 0, Marked(FirstReserved()).status)))]

  lemma FirstIsRunning() returns (s: System)
    ensures Stands(s, Alone(SINGLE), [Marked(FirstReserved())], BEFORE_DELETE)
  {
    hide Stands;
    var booked := Done(Created(FIRST_BOOKING, "now", 0, Marked(FirstReserved()).status));
    s := FirstBoots();
    assert map[][0 := (FIRST, MarkWait(FIRST_BOOKING, "now"))] == OnlyFirst(MarkWait(FIRST_BOOKING, "now"));
    s := Marks(s, Alone(SINGLE), [FirstReserved()], map[], 0, FIRST, FIRST_BOOKING);
    assert [FirstReserved()][0 := Marked(FirstReserved())] == [Marked(FirstReserved())];
    assert map[][0 := (FIRST, booked)] == BEFORE_DELETE;
  }

  /** The delete finds the VM running; the hypervisor refuses to shut it down. */
  lemma DeleteIsRejected(s: System, rt: Runtime, at: map<nat, (Job, Pc)>) returns (s': System)
    requires Stands(s, Alone(SINGLE), [rt], at) && 2 !in at && OthersOut(at, 2)
    requires rt.status.state.Occupied? && rt.status.name == Some("a") && rt.status.slot == 0
    ensures Stands(s', Alone(SINGLE), [rt], at[2 := (DELETE, CleanupWait(0, None))])
  {
    hide Stands, OthersOut, Admits, Reachable, LeadsTo, GuardOf;
    var rts, target := [rt], rt.status;
    s' := Come(s, Alone(SINGLE), rts, at, 2, DELETE);
    s' := Enter(s', Alone(SINGLE), rts, at, 2, DELETE, Start, FindByName([]));
    assert [] + [target] == [target];
    s' := AskStatus(s', Alone(SINGLE), rts, at, 2, DELETE, FindByName([]), 0, FindByName([target]));
    s' := Choose(s', Alone(SINGLE), rts, at, 2, DELETE, FindByName([target]), OK, PutShutdown(target));
    s' := Choose(s', Alone(SINGLE), rts, at, 2, DELETE, PutShutdown(target), REJECTED, CleanupWait(0, None));
  }

  lemma FirstIsMarked()
    ensures var rt := Marked(FirstReserved());
            && rt.status.state.Occupied? && rt.status.name == Some("a") && rt.status.slot == 0
            && rt.child.Some? && After(rt, ChildExited) == After(FirstReserved(), ChildExited)
  {
  }

  lemma RejectedDeleteThenOvertaken() returns (s: System)
    ensures Stands(s, Alone(SINGLE), [SecondReserved()], WithSecond(WithDelete(CleanupWait(0, None))))
  {
    hide Stands, Marked, FirstReserved, SecondReserved, Admits;
    FirstIsMarked();
    s := FirstIsRunning();
    s := DeleteIsRejected(s, Marked(FirstReserved()), BEFORE_DELETE);
    assert BEFORE_DELETE[2 := (DELETE, CleanupWait(0, None))] == WithDelete(CleanupWait(0, None));
    s := Overtaken(s, Marked(FirstReserved()), WithDelete(CleanupWait(0, None)));
  }

  lemma DeleteAndSecond(pc: Pc, next: Pc)
    ensures WithSecond(WithDelete(pc))[2 := (DELETE, next)] == WithSecond(WithDelete(next))
  {
  }

  /**
   The cleanup of a delete can end another VM: the hypervisor refused, the guard was dropped, the VM
   looked up ended by itself, and another create reserved the slot. From there the request of the
   delete ends the VM of that create.
   */
  lemma DeleteCleanupCanResetAnotherVm() returns (before: System, after: System)
    ensures Stands(before, Alone(SINGLE), [SecondReserved()], WithSecond(WithDelete(Cleanup(0, None))))
    ensures SecondReserved().status.name == Some(SECOND.name) && SECOND.name != DELETE.name
    ensures LeadsTo(before, RequestSteps(2, 0), after)
    ensures Stands(after, Alone(SINGLE), [Freed(SecondReserved())], WithSecond(WithDelete(Done(BackendError))))
  {
    hide Stands, Marked, FirstReserved, SecondReserved, Freed, LeadsTo;
    var wait := CleanupWait(0, None);
    SecondIsMarked();
    before := RejectedDeleteThenOvertaken();
    DeleteAndSecond(wait, wait);
    DeleteAndSecond(wait, Cleanup(0, None));
    DeleteAndSecond(wait, Done(BackendError));
    before, after := CleansUp(before, Alone(SINGLE), SecondReserved(), WithSecond(WithDelete(wait)), 2, DELETE, None);
  }

  // ---------- A scale-down that waits ----------

  /** A pool of one slot that may grow to two. */
  const PAIR: Config := Config(1, 2, 1)

  const FIRST_WAITS: (Job, Pc) := (FIRST, ReadyWait(FIRST_BOOKING, None))

  const SECOND_BOOKING: Booking := Booking(1, 1, 1)

  function TailReserved(): Runtime {
    Reserved(InitialRuntime(1), 1, SECOND)
  }

  /** The second create finds the first slot taken, grows the pool and reserves the new slot. */
  lemma SecondGrows() returns (s: System)
    ensures Stands(s, Grown(Alone(PAIR)), [FirstReserved(), TailReserved()], map[0 := FIRST_WAITS][1 := (SECOND, ReadyWait(SECOND_BOOKING, None))])
  {
    hide Stands;
    s := FirstReserves(PAIR);
    assert OnlyFirst(ReadyWait(FIRST_BOOKING, None)) == map[0 := FIRST_WAITS];
    s := Come(s, Alone(PAIR), [FirstReserved()], map[0 := FIRST_WAITS], 1, SECOND);
    s := AllocateNew(s, Alone(PAIR), FirstReserved(), map[0 := FIRST_WAITS], 1, SECOND);
  }

  /** Something happens to the child of the second of two slots. */
  lemma HappenAtTail(s: System, scene: Scene, a: Runtime, b: Runtime, at: map<nat, (Job, Pc)>, event: Event) returns (s': System)
    requires Stands(s, scene, [a, b], at) && !event.Handle? && Possible(b, event)
    ensures Stands(s', scene, [a, After(b, event)], at)
  {
    hide Stands;
    s' := Happen(s, scene, [a, b], at, 1, event);
    assert [a, b][1 := After(b, event)] == [a, After(b, event)];
  }

  lemma PopsTail(s: System, scene: Scene, a: Runtime, b: Runtime, at: map<nat, (Job, Pc)>, t: nat) returns (s': System)
    requires Stands(s, scene, [a, b], at[t := (Autoscale, PopTail(1))]) && |scene.ids| == 2
    ensures Stands(s', Popped(scene), [a], at[t := (Autoscale, JoinTail(Worker(scene.ids[1], b, [], Running)))])
  {
    hide Step, Reachable, Admits;
    SamePlan(s.pool, s.tasks[t], scene, [a, b], OK);
    ReachesNext(scene.config, s, Decide(t, OK));
    s' := Step(s, Decide(t, OK));
    DecisionIs(s, t, OK);
    assert s'.pool.slots == Idle(scene.ids, [a, b])[..1] == Idle(Popped(scene).ids, [a]);
  }

  /** The autoscaler asks the tail, is told that it is empty, pops it and waits for its worker. */
  lemma TickWaits(s: System, scene: Scene, a: Runtime, b: Runtime, at: map<nat, (Job, Pc)>, t: nat) returns (s': System)
    requires Stands(s, scene, [a, b], at) && |scene.ids| == 2 && scene.config == PAIR && scene.shrunk.None?
    requires b.status.state.Empty? && t !in at && OthersOut(at, t)
    ensures Stands(s', Popped(scene), [a], at[t := (Autoscale, JoinTail(Worker(scene.ids[1], b, [], Running)))])
  {
    hide Stands;
    s' := Come(s, scene, [a, b], at, t, Autoscale);
    s' := Enter(s', scene, [a, b], at, t, Autoscale, Start, CheckPool);
    s' := Choose(s', scene, [a, b], at, t, Autoscale, CheckPool, OK, AskTail(1));
    s' := AskStatus(s', scene, [a, b], at, t, Autoscale, AskTail(1), 1, PopTail(1));
    s' := PopsTail(s', scene, a, b, at, t);
  }

  function TailStarted(): Runtime {
    After(TailReserved(), SpawnOk(200))
  }

  /** The new VM ended by itself, so the tail is empty again. */
  function TailEnded(): Runtime {
    After(TailStarted(), ChildExited)
  }

  /**
   A scale-down that waits for a running worker is reachable without any failure: the pool grew
   for a second VM, whose process ended, and a tick finds the tail empty. By
   ScaleDownBlocksThePool it waits for ever unless that worker's task fails.
   */
  lemma ScaleDownCanWait() returns (s: System)
    ensures Reachable(PAIR, s) && !s.pool.shutdown
    ensures 2 in s.tasks && s.tasks[2].pc.JoinTail? && s.tasks[2].pc.popped.task.Running?
  {
    hide Stands;
    var scene, at := Grown(Alone(PAIR)), map[0 := FIRST_WAITS][1 := (SECOND, ReadyWait(SECOND_BOOKING, None))];
    s := SecondGrows();
    s := HappenAtTail(s, scene, FirstReserved(), TailReserved(), at, SpawnOk(200));
    s := HappenAtTail(s, scene, FirstReserved(), TailStarted(), at, ChildExited);
    s := TickWaits(s, scene, FirstReserved(), TailEnded(), at, 2);
    Standing(s, Popped(scene), [FirstReserved()], at[2 := (Autoscale, JoinTail(Worker(1, TailEnded(), [], Running)))], 2);
  }

  // ---------- A generation that comes back ----------

  /** The worker that is awaited fails, and the scale-down returns. */
  lemma AwaitedFails(s: System, scene: Scene, rts: seq<Runtime>, at: map<nat, (Job, Pc)>, t: nat, w: Worker) returns (s': System)
    requires Stands(s, scene, rts, at[t := (Autoscale, JoinTail(w))]) && w.task.Running?
    ensures Stands(s', scene, rts, at[t := (Autoscale, JoinTail(w.(mailbox := [], task := Died)))])
  {
    hide Reachable;
    ReachesNext(scene.config, s, PoppedStep(t, Die));
    s' := Step(s, PoppedStep(t, Die));
  }

  lemma Joins(s: System, scene: Scene, rts: seq<Runtime>, at: map<nat, (Job, Pc)>, t: nat, w: Worker) returns (s': System, scene': Scene)
    requires Stands(s, scene, rts, at[t := (Autoscale, JoinTail(w))]) && !w.task.Running?
    ensures scene' == scene.(shrunk := scene'.shrunk) && Stands(s', scene', rts, at[t := (Autoscale, Start)])
  {
    hide Step, Reachable;
    SamePlan(s.pool, s.tasks[t], scene, rts, OK);
    ReachesNext(scene.config, s, Decide(t, OK));
    s' := Step(s, Decide(t, OK));
    scene' := scene.(shrunk := Some(s.pool.clock));
    DecisionIs(s, t, OK);
  }

  const THIRD: Job := Create("c", "mac-c", true)

  /** The second create is about to mark the boot of a VM that ended, and the worker of its slot was taken out and failed. */
  lemma WorkerIsReplaced() returns (s: System, scene: Scene)
    ensures scene == Scene(PAIR, [0], 2, scene.shrunk)
    ensures Stands(s, scene, [FirstReserved()], map[0 := FIRST_WAITS][1 := (SECOND, MarkWait(SECOND_BOOKING, "now"))][2 := (Autoscale, Start)])
  {
    hide Stands;
    var pair, at := Grown(Alone(PAIR)), map[0 := FIRST_WAITS][1 := (SECOND, ReadyWait(SECOND_BOOKING, None))];
    s := SecondGrows();
    s := HappenAtTail(s, pair, FirstReserved(), TailReserved(), at, SpawnOk(200));
    s := Boots(s, pair, [FirstReserved(), TailStarted()], map[0 := FIRST_WAITS], 1, SECOND, SECOND_BOOKING);
    at := map[0 := FIRST_WAITS][1 := (SECOND, MarkWait(SECOND_BOOKING, "now"))];
    s := HappenAtTail(s, pair, FirstReserved(), TailStarted(), at, ChildExited);
    s := TickWaits(s, pair, FirstReserved(), TailEnded(), at, 2);
    s := AwaitedFails(s, Popped(pair), [FirstReserved()], at, 2, Worker(1, TailEnded(), [], Running));
    s, scene := Joins(s, Popped(pair), [FirstReserved()], at, 2, Worker(1, TailEnded(), [], Died));
    assert [0, 1][..1] == [0];
  }

  function ThirdReserved(): Runtime {
    After(Reserved(InitialRuntime(1), 1, THIRD), SpawnOk(300))
  }

  lemma ThirdIsMarked()
    ensures ThirdReserved().status.state.Booting?
    ensures Marked(ThirdReserved()).status == SlotStatus(1, 1, Occupied, Some("c"), Some("mac-c"), Some(TapName(1)), Some(300), Some("now"), None)
  {
  }

  /** Everybody else while the second create marks. */
  function WithThird(): map<nat, (Job, Pc)> {
    map[0 := FIRST_WAITS, 1 := (SECOND, MarkWait(SECOND_BOOKING, "now")), 2 := (Autoscale, Start),
        3 := (THIRD, ReadyWait(Booking(1, 2, 1), None))]
  }

  /** The pool grows again, for a third create. */
  lemma ThirdGrows() returns (s: System, scene: Scene)
    ensures scene == Scene(PAIR, [0, 2], 3, scene.shrunk)
    ensures Stands(s, scene, [FirstReserved(), ThirdReserved()], WithThird())
  {
    hide Stands;
    var at := map[0 := FIRST_WAITS][1 := (SECOND, MarkWait(SECOND_BOOKING, "now"))][2 := (Autoscale, Start)];
    s, scene := WorkerIsReplaced();
    s := Come(s, scene, [FirstReserved()], at, 3, THIRD);
    s := AllocateNew(s, scene, FirstReserved(), at, 3, THIRD);
    scene := Grown(scene);
    assert [0] + [2] == [0, 2];
    assert at[3 := (THIRD, ReadyWait(Booking(1, 2, 1), None))] == WithThird();
    s := HappenAtTail(s, scene, FirstReserved(), Reserved(InitialRuntime(1), 1, THIRD), WithThird(), SpawnOk(300));
  }

  /**
   After a worker task failed, the generation alone does not identify a reservation: the pool
   shrank and grew again, a new worker counts the generations of the slot from 0, and a create
   returns a VM of another name in the very generation it was granted.
   */
  lemma SameGenerationCanBeAnotherVm() returns (s: System)
    ensures Reachable(PAIR, s) && 1 in s.tasks && s.tasks[1].job == SECOND
    ensures s.tasks[1].pc.Done? && s.tasks[1].pc.outcome.Created?
    ensures var outcome := s.tasks[1].pc.outcome;
            && TryIntoRuntime(outcome.status).Ok?
            && TryIntoRuntime(outcome.status).value.name != SECOND.name
            && outcome.status.generation == outcome.booking.generation
            && outcome.worker != outcome.booking.worker
  {
    hide Stands;
    var scene;
    s, scene := ThirdGrows();
    var rts := [FirstReserved(), ThirdReserved()];
    ThirdIsMarked();
    assert WithThird()[1 := (SECOND, MarkWait(SECOND_BOOKING, "now"))] == WithThird();
    s := Marks(s, scene, rts, WithThird(), 1, SECOND, SECOND_BOOKING);
    Standing(s, scene, rts[1 := Marked(ThirdReserved())],
             WithThird()[1 := (SECOND, Done(Created(SECOND_BOOKING, "now", 2, Marked(ThirdReserved()).status)))], 1);
  }
}
