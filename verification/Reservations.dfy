/**
 The reservations of a slot over whole runs of the pool: what worker and generation tell about
 them, and how long one stays.
 */
module Reservations {
  import opened Slots
  import opened SlotSteps
  import opened Protocol
  import opened ProtocolInvariant
  import opened Decisions
  import opened PoolHistory
  import opened PoolTheorems
  import opened Workers

  // ---------- One step ----------

  /** This step grants a reservation of slot `i`. */
  predicate GrantsIn(s: System, a: Action, i: nat)
    requires Enabled(s, a)
  {
    var mover := Mover(s, a);
    mover.Some? && mover.value.rt.status.slot == i && Grants(mover.value, a.event)
  }

  /** This step ends the VM of slot `i`: a release, the exit of its process, or a reset. */
  predicate ClearsIn(s: System, a: Action, i: nat)
    requires Enabled(s, a)
  {
    var mover := Mover(s, a);
    mover.Some? && mover.value.rt.status.slot == i && Clears(mover.value, a.event)
  }

  /** The worker's slot carries a VM name. */
  predicate Named(w: Worker) {
    NameOf(w).Some?
  }

  /** The same worker in the same generation. */
  predicate SameReservation(a: Worker, b: Worker) {
    a.id == b.id && a.rt.status.generation == b.rt.status.generation
  }

  /** What a step makes of a worker: grants and clears start a new generation, and nothing else gives or takes a name. */
  ghost predicate Moves(w: Worker, w': Worker, granted: bool, cleared: bool) {
    var now, next := w.rt.status, w'.rt.status;
    && w'.id == w.id
    && Since(now, next)
    && (granted || cleared ==> next.generation == now.generation + 1)
    && (!granted && Named(w') ==> Named(w) && next.generation == now.generation)
    && (!cleared && Named(w) ==> Named(w') && next.generation == now.generation)
  }

  lemma EventMoves(w: Worker, event: WorkerEvent)
    requires WellFormed(w.rt) && WorkerCan(w, true, event)
    ensures Moves(w, WorkerAfter(w, event), Grants(w, event), Clears(w, event))
  {
  }

  lemma StepMoves(s: System, a: Action, i: nat, w: Worker)
    requires Inv(s) && Enabled(s, a) && Serves(s, i, w)
    ensures Moves(w, Next(s, a, w), GrantsIn(s, a, i), ClearsIn(s, a, i))
  {
    hide Inv, InSystem, WorkerAfter, Grants, Clears, Moves;
    InSystemIsOk(s, w);
    if Mover(s, a).Some? {
      MoverIsOk(s, a);
      if Mover(s, a).value.rt.status.slot == i {
        OneServerPerSlot(s, w, Mover(s, a).value);
        EventMoves(w, a.event);
      } else {
        StaysPut(w, w);
      }
    } else {
      StaysPut(w, Next(s, a, w));
    }
  }

  lemma StaysPut(w: Worker, w': Worker)
    requires w'.id == w.id && w'.rt == w.rt
    ensures Moves(w, w', false, false)
  {
  }

  // ---------- Many steps ----------

  ghost predicate AllEnabled(states: seq<System>, actions: seq<Action>) {
    |states| == |actions| + 1 && forall n :: 0 <= n < |actions| ==> Enabled(states[n], actions[n])
  }

  /** No reservation of slot `i` is granted from `from` on, before `until`. */
  ghost predicate NoGrants(states: seq<System>, actions: seq<Action>, from: nat, until: nat, i: nat)
    requires AllEnabled(states, actions) && until <= |actions|
  {
    forall n :: from <= n < until ==> !GrantsIn(states[n], actions[n], i)
  }

  /** No VM of slot `i` is ended from `from` on, before `until`. */
  ghost predicate NoClears(states: seq<System>, actions: seq<Action>, from: nat, until: nat, i: nat)
    requires AllEnabled(states, actions) && until <= |actions|
  {
    forall n :: from <= n < until ==> !ClearsIn(states[n], actions[n], i)
  }

  /** How worker `b` of a later state, that serves slot `i`, comes from worker `a`. */
  ghost predicate Descends(states: seq<System>, actions: seq<Action>, from: nat, until: nat, i: nat, a: Worker, b: Worker)
    requires AllEnabled(states, actions) && until <= |actions|
  {
    && b.id == a.id
    && Since(a.rt.status, b.rt.status)
    && (!NoGrants(states, actions, from, until, i) || !NoClears(states, actions, from, until, i) ==>
          a.rt.status.generation < b.rt.status.generation)
    && (NoGrants(states, actions, from, until, i) && Named(b) ==> Named(a) && SameReservation(a, b))
  }

  lemma DescendsNext(states: seq<System>, actions: seq<Action>, from: nat, until: nat, i: nat, a: Worker, b: Worker, b': Worker)
    requires AllEnabled(states, actions) && from <= until < |actions| && Descends(states, actions, from, until, i, a, b)
    requires Moves(b, b', GrantsIn(states[until], actions[until], i), ClearsIn(states[until], actions[until], i))
    ensures Descends(states, actions, from, until + 1, i, a, b')
  {
    hide Enabled, GrantsIn, ClearsIn;
  }

  /** A worker that serves slot `i` served it before, or was started since; then it was granted what it carries since. */
  lemma {:induction false} Lineage(config: Config, states: seq<System>, actions: seq<Action>, from: nat, until: nat, i: nat, b: Worker)
      returns (origin: Option<Worker>)
    requires IsRun(config, states, actions) && from <= until < |states| && Serves(states[until], i, b)
    ensures states[from].pool.nextWorker <= states[until].pool.nextWorker
    ensures match origin
            case None => states[from].pool.nextWorker <= b.id && (Named(b) ==> !NoGrants(states, actions, from, until, i))
            case Some(a) => Serves(states[from], i, a) && Descends(states, actions, from, until, i, a, b)
    decreases until
  {
    hide Step, Inv, InSystem, Next, Descends, Moves, GrantsIn, ClearsIn, Enabled;
    if from == until {
      origin := Some(b);
      DescendsFromItself(states, actions, from, i, b);
    } else {
      var s, act := states[until - 1], actions[until - 1];
      RunsKeepInvariants(config, states, actions, until - 1);
      StepAnswers(s, act);
      var before := Origin(s, act, b);
      if before.None? {
        origin := None;
        NotStartedBefore(config, states, actions, from, until - 1);
      } else {
        var v := before.value;
        StepMoves(s, act, v.rt.status.slot, v);
        SlotStays(v, b, GrantsIn(s, act, v.rt.status.slot), ClearsIn(s, act, v.rt.status.slot));
        origin := Lineage(config, states, actions, from, until - 1, i, v);
        if origin.Some? {
          DescendsNext(states, actions, from, until - 1, i, origin.value, v, b);
        } else {
          StartedSince(states, actions, from, until - 1, i, v, b);
        }
      }
    }
  }

  lemma SlotStays(w: Worker, w': Worker, granted: bool, cleared: bool)
    requires Moves(w, w', granted, cleared)
    ensures w'.rt.status.slot == w.rt.status.slot && w'.id == w.id
  {
  }

  lemma DescendsFromItself(states: seq<System>, actions: seq<Action>, from: nat, i: nat, b: Worker)
    requires AllEnabled(states, actions) && from <= |actions|
    ensures Descends(states, actions, from, from, i, b, b)
  {
    hide Enabled, GrantsIn, ClearsIn;
  }

  lemma StartedSince(states: seq<System>, actions: seq<Action>, from: nat, until: nat, i: nat, b: Worker, b': Worker)
    requires AllEnabled(states, actions) && from <= until < |actions|
    requires Named(b) ==> !NoGrants(states, actions, from, until, i)
    requires Moves(b, b', GrantsIn(states[until], actions[until], i), ClearsIn(states[until], actions[until], i))
    ensures Named(b') ==> !NoGrants(states, actions, from, until + 1, i)
  {
    hide Enabled, GrantsIn, ClearsIn;
  }

  lemma {:induction false} NotStartedBefore(config: Config, states: seq<System>, actions: seq<Action>, from: nat, until: nat)
    requires IsRun(config, states, actions) && from <= until < |states|
    ensures states[from].pool.nextWorker <= states[until].pool.nextWorker
    decreases until
  {
    hide Step;
    if from < until {
      NotStartedBefore(config, states, actions, from, until - 1);
      StepAnswers(states[until - 1], actions[until - 1]);
    }
  }

  // ---------- What the generation tells ----------

  /** A worker that serves the slot at both moments descends from itself. */
  lemma SameWorkerDescends(config: Config, states: seq<System>, actions: seq<Action>, from: nat, until: nat, i: nat, a: Worker, b: Worker)
    requires IsRun(config, states, actions) && from <= until < |states|
    requires Serves(states[from], i, a) && Serves(states[until], i, b) && a.id == b.id
    ensures Descends(states, actions, from, until, i, a, b)
  {
    hide Step, Inv, InSystem, Descends;
    var origin := Lineage(config, states, actions, from, until, i, b);
    RunsKeepInvariants(config, states, actions, from);
    InSystemIsOk(states[from], a);
    OneServerPerSlot(states[from], a, origin.value);
  }

  /** A name carried later, with no grant in between, was carried before, by the same reservation. */
  lemma UndisturbedName(config: Config, states: seq<System>, actions: seq<Action>, from: nat, until: nat, i: nat, b: Worker)
      returns (a: Worker)
    requires IsRun(config, states, actions) && from <= until < |states|
    requires Serves(states[until], i, b) && Named(b) && NoGrants(states, actions, from, until, i)
    ensures Serves(states[from], i, a) && Named(a) && SameReservation(a, b)
  {
    var origin := Lineage(config, states, actions, from, until, i, b);
    a := origin.value;
  }

  /**
   What worker and generation tell: a slot that carries a name at two moments carries the same
   reservation if and only if none was granted there in between; then it is the same VM.
   */
  lemma SameReservationIffNoOtherGrant(config: Config, states: seq<System>, actions: seq<Action>, from: nat, until: nat,
                                       i: nat, a: Worker, b: Worker)
    requires IsRun(config, states, actions) && from <= until < |states|
    requires Serves(states[from], i, a) && Named(a) && Serves(states[until], i, b) && Named(b)
    ensures SameReservation(a, b) <==> NoGrants(states, actions, from, until, i)
    ensures SameReservation(a, b) ==>
              var first, second := a.rt.status, b.rt.status;
              first.name == second.name && first.mac == second.mac && first.tap == second.tap
  {
    hide Step, Inv, InSystem, GrantsIn;
    if NoGrants(states, actions, from, until, i) {
      var v := UndisturbedName(config, states, actions, from, until, i, b);
      RunsKeepInvariants(config, states, actions, from);
      OneServerPerSlot(states[from], a, v);
    }
    if SameReservation(a, b) {
      SameWorkerDescends(config, states, actions, from, until, i, a, b);
    }
  }

  // ---------- How long a reservation stays ----------

  /** Before shutdown a named slot is in the vector, and stays there. */
  lemma NamedStaysInPool(s: System, a: Action, i: nat)
    requires Inv(s) && Enabled(s, a) && !s.pool.shutdown && i < |s.pool.slots| && Named(s.pool.slots[i])
    ensures i < |Step(s, a).pool.slots| && Step(s, a).pool.slots[i] == Next(s, a, s.pool.slots[i])
  {
    if a.Decide? {
      DecisionIs(s, a.task, a.oracle);
      assert TaskOk(s.pool, s.tasks[a.task]);
      hide Step, Inv, TaskOk;
      PoppedIsUnnamed(s.pool, s.tasks[a.task], a.oracle);
      VectorOrigin(s, a, i);
    } else {
      SameSize(s, a);
      hide Step, Inv;
      VectorOrigin(s, a, i);
    }
  }

  lemma {:induction false} StaysUnlessCleared(config: Config, states: seq<System>, actions: seq<Action>, from: nat, until: nat, i: nat)
    requires IsRun(config, states, actions) && from <= until < |states| && !states[until].pool.shutdown
    requires i < |states[from].pool.slots| && Named(states[from].pool.slots[i]) && NoClears(states, actions, from, until, i)
    ensures i < |states[until].pool.slots| && Named(states[until].pool.slots[i])
    ensures SameReservation(states[from].pool.slots[i], states[until].pool.slots[i])
    decreases until
  {
    hide Step, Inv;
    if from < until {
      var s, act := states[until - 1], actions[until - 1];
      ShutdownStays(s, act);
      StaysUnlessCleared(config, states, actions, from, until - 1, i);
      RunsKeepInvariants(config, states, actions, until - 1);
      NamedStaysInPool(s, act, i);
      InPoolIsInSystem(s, i);
      StepMoves(s, act, i, s.pool.slots[i]);
    }
  }

  /** Until shutdown, a reservation is still there if and only if nothing ended its VM: no release, no exit, no reset. */
  lemma ReservationStaysIffNotCleared(config: Config, states: seq<System>, actions: seq<Action>, from: nat, until: nat, i: nat, a: Worker)
    requires IsRun(config, states, actions) && from <= until < |states| && !states[until].pool.shutdown
    requires i < |states[from].pool.slots| && a == states[from].pool.slots[i] && Named(a)
    ensures (i < |states[until].pool.slots| && SameReservation(a, states[until].pool.slots[i]))
            <==> NoClears(states, actions, from, until, i)
  {
    hide Step, Inv, InSystem, Descends;
    if NoClears(states, actions, from, until, i) {
      StaysUnlessCleared(config, states, actions, from, until, i);
    } else if i < |states[until].pool.slots| && a.id == states[until].pool.slots[i].id {
      RunsKeepInvariants(config, states, actions, from);
      RunsKeepInvariants(config, states, actions, until);
      InPoolIsInSystem(states[from], i);
      InPoolIsInSystem(states[until], i);
      SameWorkerDescends(config, states, actions, from, until, i, a, states[until].pool.slots[i]);
      ClearedDescends(states, actions, from, until, i, a, states[until].pool.slots[i]);
    }
  }

  lemma ClearedDescends(states: seq<System>, actions: seq<Action>, from: nat, until: nat, i: nat, a: Worker, b: Worker)
    requires AllEnabled(states, actions) && until <= |actions| && Descends(states, actions, from, until, i, a, b)
    requires !NoClears(states, actions, from, until, i)
    ensures !SameReservation(a, b)
  {
  }
}
