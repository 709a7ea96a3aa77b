/**
 The workers of the pool as single slots: behind its mailbox every worker refines an atomic slot
 that is sent exactly the commands the run posted to it; and between any two moments a worker
 follows one legal history, so what holds over the runs of a slot holds over the runs of the pool.
 */
module Histories {
  import opened Slots
  import opened SlotSteps
  import R = SlotRuns
  import opened Protocol
  import opened ProtocolInvariant
  import opened PoolTheorems
  import opened Workers
  import opened Reservations

  // ---------- Workers as actors ----------

  function CommandsIn(mailbox: seq<Envelope>): seq<Command> {
    seq(|mailbox|, k requires 0 <= k < |mailbox| => mailbox[k].command)
  }

  function CommandsQueued(queue: seq<R.Sent>): seq<Command> {
    seq(|queue|, k requires 0 <= k < |queue| => queue[k].command)
  }

  /** Worker and actor have the same record and the same commands queued, in the same order. */
  ghost predicate Simulates(w: Worker, actor: R.Actor) {
    && w.rt == actor.rt && (w.task.Running? <==> actor.running)
    && CommandsIn(w.mailbox) == CommandsQueued(actor.queue)
  }

  function ActorStepOf(event: WorkerEvent): R.ActorStep {
    match event
    case Own(e) => R.Spontaneous(e)
    case Take(tapError) => R.Take(tapError)
    case Leave => R.Exit
    case Die => R.Exit
  }

  /** A worker's event is a step of the actor, and the answer it gives is the actor's. */
  lemma EventIsActorStep(w: Worker, actor: R.Actor, event: WorkerEvent)
    requires Simulates(w, actor) && WorkerCan(w, true, event)
    ensures R.CanDo(actor, ActorStepOf(event)) && Simulates(WorkerAfter(w, event), R.Do(actor, ActorStepOf(event)))
    ensures event.Take? ==>
              var answered := R.Do(actor, ActorStepOf(event)).answered;
              && |answered| == |actor.answered| + 1
              && NewAnswers(w, event)[w.mailbox[0].ticket] == Answer(w.id, answered[|actor.answered|].reply)
  {
    assert |w.mailbox| == |CommandsIn(w.mailbox)| == |actor.queue|;
    if event.Take? {
      assert CommandsIn(w.mailbox)[0] == CommandsQueued(actor.queue)[0];
      assert CommandsIn(w.mailbox[1..]) == CommandsIn(w.mailbox)[1..];
      assert CommandsQueued(actor.queue[1..]) == CommandsQueued(actor.queue)[1..];
    }
  }

  /** Posting a command is the actor's sending. */
  lemma PostIsActorStep(w: Worker, actor: R.Actor, ticket: nat, command: Command)
    requires Simulates(w, actor) && w.task.Running? && |w.mailbox| < CHANNEL_CAPACITY
    ensures R.CanDo(actor, R.Send(command))
    ensures Simulates(w.(mailbox := w.mailbox + [Envelope(ticket, command)]), R.Do(actor, R.Send(command)))
  {
    assert |w.mailbox| == |CommandsIn(w.mailbox)| == |actor.queue|;
    assert CommandsIn(w.mailbox + [Envelope(ticket, command)]) == CommandsIn(w.mailbox) + [command];
    assert CommandsQueued(actor.queue + [R.Sent(actor.sent, command)]) == CommandsQueued(actor.queue) + [command];
  }

  // ---------- What the run posted to a worker ----------

  /** The envelopes posted to worker `id` of slot `i` in the first `k` steps of a run, in order. */
  ghost function PostedTo(states: seq<System>, actions: seq<Action>, k: nat, i: nat, id: nat): seq<Envelope>
    requires AllEnabled(states, actions) && k < |states|
  {
    if k == 0 then []
    else PostedTo(states, actions, k - 1, i, id) + PostedIn(states[k - 1], actions[k - 1], i, id)
  }

  function PostedIn(s: System, a: Action, i: nat, id: nat): seq<Envelope>
    requires Enabled(s, a)
  {
    var receiver := Receiver(s, a);
    if receiver.Some? && receiver.value.rt.status.slot == i && receiver.value.id == id
    then [Envelope(s.pool.nextTicket, PostOf(s, a).value.1)]
    else []
  }

  predicate InOrder(posted: seq<Envelope>) {
    forall a, b :: 0 <= a < b < |posted| ==> posted[a].ticket < posted[b].ticket
  }

  predicate AllBefore(posted: seq<Envelope>, next: nat) {
    forall a :: 0 <= a < |posted| ==> posted[a].ticket < next
  }

  lemma {:induction false} PostedInOrder(config: Config, states: seq<System>, actions: seq<Action>, k: nat, i: nat, id: nat)
    requires IsRun(config, states, actions) && k < |states|
    ensures InOrder(PostedTo(states, actions, k, i, id)) && AllBefore(PostedTo(states, actions, k, i, id), states[k].pool.nextTicket)
    decreases k
  {
    hide Step;
    if k > 0 {
      PostedInOrder(config, states, actions, k - 1, i, id);
      StepAnswers(states[k - 1], actions[k - 1]);
    }
  }

  /** Nothing is posted to a worker before it is started. */
  lemma {:induction false} NothingPostedBefore(config: Config, states: seq<System>, actions: seq<Action>, k: nat, i: nat, id: nat)
    requires IsRun(config, states, actions) && k < |states| && states[k].pool.nextWorker <= id
    ensures PostedTo(states, actions, k, i, id) == []
    decreases k
  {
    hide Step, Inv;
    if k > 0 {
      StepAnswers(states[k - 1], actions[k - 1]);
      NothingPostedBefore(config, states, actions, k - 1, i, id);
      RunsKeepInvariants(config, states, actions, k - 1);
      if Receiver(states[k - 1], actions[k - 1]).Some? {
        ReceiverIsKnown(states[k - 1], actions[k - 1]);
      }
    }
  }

  lemma ReceiverIsKnown(s: System, a: Action)
    requires Inv(s) && Enabled(s, a) && Receiver(s, a).Some?
    ensures InSystem(s, Receiver(s, a).value) && Receiver(s, a).value.id < s.pool.nextWorker
  {
    hide UniqueNames, TasksOk, Exclusive;
    assert WorkerOk(s.pool, PostOf(s, a).value.0, s.pool.slots[PostOf(s, a).value.0]);
  }

  /** What a step posts to a worker is what it puts into that worker's mailbox. */
  lemma PostedInIs(s: System, a: Action, w: Worker)
    requires Inv(s) && Enabled(s, a) && InSystem(s, w)
    ensures PostedIn(s, a, w.rt.status.slot, w.id)
            == if Receiver(s, a) == Some(w) then [Envelope(s.pool.nextTicket, PostOf(s, a).value.1)] else []
  {
    hide Inv, InSystem;
    if Receiver(s, a).Some? {
      ReceiverIsKnown(s, a);
      if Receiver(s, a).value.rt.status.slot == w.rt.status.slot {
        OneServerPerSlot(s, w, Receiver(s, a).value);
      }
    }
  }

  // ---------- The refinement ----------

  /**
   A worker that was posted these envelopes is an atomic slot that performed this history: the
   first commands posted took effect, each once and in order; under each of their tickets lies the
   atomic slot's reply; and the others are still queued, in order, or were answered as lost when the
   worker ended.
   */
  ghost predicate Explains(answers: map<nat, Answer>, posted: seq<Envelope>, w: Worker, history: seq<Event>) {
    var slot := w.rt.status.slot;
    && R.Legal(slot, history)
    && w.rt == R.State(slot, history)
    && var replies := R.RepliesOf(slot, history);
       && |replies| <= |posted|
       && R.CommandsOf(history) == CommandsIn(posted[..|replies|])
       && (forall j :: 0 <= j < |replies| ==> Answered(answers, posted[j].ticket, Answer(w.id, replies[j])))
       && (if w.task.Running? then w.mailbox == posted[|replies|..]
           else w.mailbox == [] && forall j :: |replies| <= j < |posted| ==> Answered(answers, posted[j].ticket, Lost))
  }

  predicate Answered(answers: map<nat, Answer>, ticket: nat, answer: Answer) {
    ticket in answers && answers[ticket] == answer
  }

  /** No answer was changed. */
  ghost predicate Extends(answers: map<nat, Answer>, answers': map<nat, Answer>) {
    forall ticket, answer :: Answered(answers, ticket, answer) ==> Answered(answers', ticket, answer)
  }

  lemma NewAnswersExplain(answers: map<nat, Answer>, answers': map<nat, Answer>, posted: seq<Envelope>, w: Worker, history: seq<Event>)
    requires Explains(answers, posted, w, history) && Extends(answers, answers')
    ensures Explains(answers', posted, w, history)
  {
    hide R.Legal, R.State, R.RepliesOf, R.CommandsOf, CommandsIn, Answered;
  }

  lemma PostExplained(answers: map<nat, Answer>, posted: seq<Envelope>, w: Worker, history: seq<Event>, e: Envelope)
    requires Explains(answers, posted, w, history) && w.task.Running?
    ensures Explains(answers, posted + [e], w.(mailbox := w.mailbox + [e]), history)
  {
    hide R.Legal, R.State, R.CommandsOf, Answered;
    var n := |R.RepliesOf(w.rt.status.slot, history)|;
    assert (posted + [e])[..n] == posted[..n] && (posted + [e])[n..] == posted[n..] + [e];
  }

  lemma OwnExplained(answers: map<nat, Answer>, posted: seq<Envelope>, w: Worker, history: seq<Event>, event: Event)
    requires Explains(answers, posted, w, history) && WorkerCan(w, true, Own(event))
    ensures Explains(answers, posted, WorkerAfter(w, Own(event)), history + [event])
  {
    var slot := w.rt.status.slot;
    R.LegalExtend(slot, history, event);
    R.SpontaneousExtends(slot, history, event);
    R.RunsAreWellFormed(slot, history);
    R.RunsAreWellFormed(slot, history + [event]);
    hide R.Legal, R.State, R.RepliesOf, R.CommandsOf, CommandsIn, Answered;
  }

  lemma TakeExplained(answers: map<nat, Answer>, posted: seq<Envelope>, w: Worker, history: seq<Event>, tapError: Option<string>)
      returns (longer: seq<Event>)
    requires Explains(answers, posted, w, history) && WorkerCan(w, true, Take(tapError))
    requires Answered(answers, w.mailbox[0].ticket, NewAnswers(w, Take(tapError))[w.mailbox[0].ticket])
    ensures Explains(answers, posted, WorkerAfter(w, Take(tapError)), longer)
  {
    var slot, n, event := w.rt.status.slot, |R.RepliesOf(w.rt.status.slot, history)|, Handle(w.mailbox[0].command, tapError);
    longer := history + [event];
    R.LegalExtend(slot, history, event);
    R.HandlingExtends(slot, history, event);
    R.RunsAreWellFormed(slot, history);
    R.RunsAreWellFormed(slot, longer);
    assert w.mailbox[0] == posted[n] && w.mailbox[1..] == posted[n + 1..];
    CommandsOfNext(posted, n);
    hide R.Legal, R.State, R.RepliesOf, R.CommandsOf, CommandsIn;
  }

  lemma CommandsOfNext(posted: seq<Envelope>, n: nat)
    requires n < |posted|
    ensures CommandsIn(posted[..n + 1]) == CommandsIn(posted[..n]) + [posted[n].command]
  {
  }

  lemma EndExplained(answers: map<nat, Answer>, posted: seq<Envelope>, w: Worker, history: seq<Event>, event: WorkerEvent)
    requires Explains(answers, posted, w, history) && WorkerCan(w, true, event) && (event.Leave? || event.Die?)
    requires forall ticket :: ticket in NewAnswers(w, event) ==> Answered(answers, ticket, Lost)
    ensures Explains(answers, posted, WorkerAfter(w, event), history)
  {
    hide R.Legal, R.State, R.CommandsOf, CommandsIn, Answered;
    var n := |R.RepliesOf(w.rt.status.slot, history)|;
    forall j | n <= j < |posted| ensures Answered(answers, posted[j].ticket, Lost) {
      assert posted[j] == w.mailbox[j - n];
      assert posted[j].ticket in NewAnswers(w, event);
    }
  }

  lemma EventExplained(answers: map<nat, Answer>, answers': map<nat, Answer>, posted: seq<Envelope>, w: Worker, history: seq<Event>,
                       event: WorkerEvent) returns (longer: seq<Event>)
    requires Explains(answers, posted, w, history) && WorkerCan(w, true, event)
    requires Extends(answers, answers') && answers' == answers + NewAnswers(w, event)
    ensures Explains(answers', posted, WorkerAfter(w, event), longer)
  {
    NewAnswersExplain(answers, answers', posted, w, history);
    longer := history;
    hide Explains, Extends;
    match event {
      case Own(e) =>
        OwnExplained(answers', posted, w, history, e);
        longer := history + [e];
      case Take(tapError) => longer := TakeExplained(answers', posted, w, history, tapError);
      case Leave => EndExplained(answers', posted, w, history, event);
      case Die => EndExplained(answers', posted, w, history, event);
    }
  }

  lemma StepExtendsAnswers(s: System, a: Action)
    requires Inv(s) && Enabled(s, a) && Unanswered(s)
    ensures Extends(s.pool.answers, Step(s, a).pool.answers)
  {
    hide Inv, Step, Unanswered;
    forall ticket, answer | Answered(s.pool.answers, ticket, answer) ensures Answered(Step(s, a).pool.answers, ticket, answer) {
      StepKeepsAnswers(s, a, ticket);
    }
  }

  lemma StepExplained(s: System, a: Action, posted: seq<Envelope>, w: Worker, history: seq<Event>) returns (longer: seq<Event>)
    requires Inv(s) && Enabled(s, a) && Unanswered(s) && InSystem(s, w) && Explains(s.pool.answers, posted, w, history)
    ensures Explains(Step(s, a).pool.answers, posted + PostedIn(s, a, w.rt.status.slot, w.id), Next(s, a, w), longer)
  {
    hide Inv, Step, Unanswered, InSystem, Explains, Extends, PostedIn;
    var answers' := Step(s, a).pool.answers;
    StepAnswers(s, a);
    StepExtendsAnswers(s, a);
    PostedInIs(s, a, w);
    longer := history;
    if Mover(s, a) == Some(w) {
      longer := EventExplained(s.pool.answers, answers', posted, w, history, a.event);
      assert posted + [] == posted;
    } else {
      NewAnswersExplain(s.pool.answers, answers', posted, w, history);
      if Receiver(s, a) == Some(w) {
        PostExplained(answers', posted, w, history, Envelope(s.pool.nextTicket, PostOf(s, a).value.1));
      } else {
        assert posted + [] == posted;
      }
    }
  }

  lemma FreshIsExplained(answers: map<nat, Answer>, id: nat, slot: nat)
    ensures Explains(answers, [], FreshWorker(id, slot), [])
  {
  }

  /**
   In every run of the pool every worker, in the vector or popped from it, refines an atomic slot:
   with the envelopes the run posted to it, the answers the run holds, and a legal history.
   */
  lemma {:induction false} PoolWorkersRefineAtomicSlots(config: Config, states: seq<System>, actions: seq<Action>, k: nat, w: Worker)
      returns (history: seq<Event>)
    requires IsRun(config, states, actions) && k < |states| && InSystem(states[k], w)
    ensures InOrder(PostedTo(states, actions, k, w.rt.status.slot, w.id))
    ensures Explains(states[k].pool.answers, PostedTo(states, actions, k, w.rt.status.slot, w.id), w, history)
    decreases k
  {
    hide Step, Inv, InSystem, Explains, Next, Unanswered;
    PostedInOrder(config, states, actions, k, w.rt.status.slot, w.id);
    if k == 0 {
      history := [];
      StartedAtFirst(config, w);
      FreshIsExplained(states[0].pool.answers, w.id, w.rt.status.slot);
    } else {
      var s, a := states[k - 1], actions[k - 1];
      RunsKeepInvariants(config, states, actions, k - 1);
      TicketsAreUsedOnce(config, states, actions, k - 1);
      var origin := Origin(s, a, w);
      if origin.None? {
        history := [];
        NothingPostedBefore(config, states, actions, k - 1, w.rt.status.slot, w.id);
        NothingPostedToNew(s, a, w.rt.status.slot);
        FreshIsExplained(states[k].pool.answers, w.id, w.rt.status.slot);
      } else {
        var v := origin.value;
        StepMoves(s, a, v.rt.status.slot, v);
        history := PoolWorkersRefineAtomicSlots(config, states, actions, k - 1, v);
        history := StepExplained(s, a, PostedTo(states, actions, k - 1, v.rt.status.slot, v.id), v, history);
      }
    }
  }

  lemma StartedAtFirst(config: Config, w: Worker)
    requires InSystem(InitialSystem(config), w)
    ensures w == FreshWorker(w.id, w.rt.status.slot)
  {
  }

  lemma NothingPostedToNew(s: System, a: Action, i: nat)
    requires Inv(s) && Enabled(s, a)
    ensures PostedIn(s, a, i, s.pool.nextWorker) == []
  {
    hide Inv;
    if Receiver(s, a).Some? {
      ReceiverIsKnown(s, a);
    }
  }

  // ---------- One history per worker ----------

  /** A legal history of the slot that leads to `b`, and whose first `j` events lead to `a`. */
  ghost predicate Links(slot: nat, history: seq<Event>, j: nat, a: Runtime, b: Runtime) {
    && j <= |history| && R.Legal(slot, history) && R.Legal(slot, history[..j])
    && R.State(slot, history[..j]) == a && R.State(slot, history) == b
  }

  ghost predicate SharedHistory(slot: nat, a: Runtime, b: Runtime) {
    exists history: seq<Event>, j: nat :: Links(slot, history, j, a, b)
  }

  lemma HistoryGrows(slot: nat, a: Runtime, b: Runtime, event: Event)
    requires SharedHistory(slot, a, b) && Possible(b, event)
    ensures SharedHistory(slot, a, After(b, event))
  {
    var history: seq<Event>, j: nat :| Links(slot, history, j, a, b);
    R.LegalExtend(slot, history, event);
    assert (history + [event])[..j] == history[..j];
    assert Links(slot, history + [event], j, a, After(b, event));
  }

  lemma WorkerHistoryGrows(w: Worker, slot: nat, a: Runtime, event: WorkerEvent)
    requires SharedHistory(slot, a, w.rt) && WorkerCan(w, true, event)
    ensures SharedHistory(slot, a, WorkerAfter(w, event).rt)
  {
    match event {
      case Own(e) => HistoryGrows(slot, a, w.rt, e);
      case Take(tapError) => HistoryGrows(slot, a, w.rt, Handle(w.mailbox[0].command, tapError));
      case _ =>
    }
  }

  /** A worker that serves slot `i` goes on with the history it had before, or was started since. */
  lemma {:induction false} HistoryGoesOn(config: Config, states: seq<System>, actions: seq<Action>, from: nat, until: nat, i: nat, b: Worker)
      returns (origin: Option<Worker>)
    requires IsRun(config, states, actions) && from <= until < |states| && Serves(states[until], i, b)
    ensures match origin
            case None => states[from].pool.nextWorker <= b.id
            case Some(a) => Serves(states[from], i, a) && a.id == b.id && SharedHistory(i, a.rt, b.rt)
    decreases until
  {
    hide Step, Inv, InSystem, Next, SharedHistory;
    if from == until {
      origin := Some(b);
      var history := PoolWorkersRefineAtomicSlots(config, states, actions, until, b);
      ExplainedHistory(states[until].pool.answers, PostedTo(states, actions, until, i, b.id), b, history);
    } else {
      var s, act := states[until - 1], actions[until - 1];
      RunsKeepInvariants(config, states, actions, until - 1);
      var before := Origin(s, act, b);
      if before.None? {
        origin := None;
        NotStartedBefore(config, states, actions, from, until - 1);
      } else {
        var v := before.value;
        StepMoves(s, act, v.rt.status.slot, v);
        origin := HistoryGoesOn(config, states, actions, from, until - 1, i, v);
        if origin.Some? {
          NextFollows(s, act, v, i, origin.value.rt);
        }
      }
    }
  }

  lemma ExplainedHistory(answers: map<nat, Answer>, posted: seq<Envelope>, w: Worker, history: seq<Event>)
    requires Explains(answers, posted, w, history)
    ensures SharedHistory(w.rt.status.slot, w.rt, w.rt)
  {
    assert history[..|history|] == history;
    assert Links(w.rt.status.slot, history, |history|, w.rt, w.rt);
  }

  lemma NextFollows(s: System, act: Action, w: Worker, i: nat, a: Runtime)
    requires Enabled(s, act) && SharedHistory(i, a, w.rt)
    ensures SharedHistory(i, a, Next(s, act, w).rt)
  {
    hide SharedHistory;
    if Mover(s, act) == Some(w) {
      WorkerHistoryGrows(w, i, a, act.event);
    }
  }

  /** Between any two moments of a run of the pool a worker follows one legal history of its slot. */
  lemma WorkersFollowOneHistory(config: Config, states: seq<System>, actions: seq<Action>, k: nat, m: nat, i: nat, a: Worker, b: Worker)
    requires IsRun(config, states, actions) && k <= m < |states|
    requires Serves(states[k], i, a) && Serves(states[m], i, b) && a.id == b.id
    ensures SharedHistory(i, a.rt, b.rt)
  {
    hide Step, Inv, InSystem, SharedHistory;
    var origin := HistoryGoesOn(config, states, actions, k, m, i, b);
    RunsKeepInvariants(config, states, actions, k);
    InSystemIsOk(states[k], a);
    OneServerPerSlot(states[k], a, origin.value);
  }

  /**
   Process isolation in the pool: of a worker whose slot carries a VM and has a process at two
   moments of a run, it is the same process if and only if it is the same reservation.
   */
  lemma OneProcessPerReservation(config: Config, states: seq<System>, actions: seq<Action>, k: nat, m: nat, i: nat, v: Worker, w: Worker)
    requires IsRun(config, states, actions) && k <= m < |states|
    requires Serves(states[k], i, v) && Named(v) && Serves(states[m], i, w) && Named(w) && v.id == w.id
    requires v.rt.child.Some? && w.rt.child.Some?
    ensures v.rt.child == w.rt.child <==> SameReservation(v, w)
    ensures var a, b := v.rt, w.rt;
            a.child == b.child ==> a.status.name == b.status.name && a.status.mac == b.status.mac && a.status.tap == b.status.tap
  {
    hide Step, InSystem;
    WorkersFollowOneHistory(config, states, actions, k, m, i, v, w);
    var history: seq<Event>, j: nat :| Links(i, history, j, v.rt, w.rt);
    assert history[..|history|] == history;
    R.OneChildPerReservation(i, history, j, |history|);
  }
}
