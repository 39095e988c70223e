/** Terminal events of adapter workflows: who may queue one, and why the bounded
    queue never has to drop one. */
module Workflows {
  const MAX_EVENTS: nat := 512
  const MAX_WORKFLOWS: nat := 128

  type Id = nat

  /** An active workflow; `call` numbers the continuation that holds it, 0 if none. */
  datatype Session = Session(adapter: nat, generation: nat, call: nat)

  /** A start in progress. Its reservation is spent once the workflow has either been
      inserted or has queued its only event. */
  datatype Begin = Begin(adapter: nat, generation: nat, spent: bool)

  /** A continuation in progress. */
  datatype Continuation = Continuation(id: Id, generation: nat)

  datatype Event = Event(id: Id, number: nat)

  /** The Host under its mutex; `used`, `acknowledged` and `emitted` only remember. */
  datatype State = State(
    queue: seq<Event>, workflows: map<Id, Session>, begins: map<Id, Begin>, continuations: map<nat, Continuation>,
    starts: nat, number: nat, calls: nat, used: set<Id>, emitted: multiset<Id>, acknowledged: multiset<Id>)

  /** queueWorkflowLifecycleLocked, with its drop-oldest branch. */
  function Enqueue(s: State, id: Id): State {
    var kept := if |s.queue| >= MAX_EVENTS then s.queue[1..] else s.queue;
    s.(queue := kept + [Event(id, s.number + 1)], number := s.number + 1, emitted := s.emitted + multiset{id})
  }

  /** removeWorkflowLocked */
  function Remove(s: State, id: Id): State {
    Enqueue(s.(workflows := s.workflows - {id}), id)
  }

  predicate CanReserve(s: State, id: Id) {
    && id !in s.used
    && |s.queue| + |s.workflows| + s.starts < MAX_EVENTS
    && |s.workflows| + s.starts < MAX_WORKFLOWS
  }

  /** reserveWorkflow for a start with a new workflow ID. */
  function Reserve(s: State, id: Id, adapter: nat, generation: nat): State {
    s.(starts := s.starts + 1, begins := s.begins[id := Begin(adapter, generation, false)], used := s.used + {id})
  }

  predicate Starting(s: State, id: Id) { id in s.begins && !s.begins[id].spent }

  function Spend(s: State, id: Id): State
    requires id in s.begins
  {
    s.(begins := s.begins[id := s.begins[id].(spent := true)])
  }

  /** The adapter refuses the start: recordWorkflowLifecycle, or finishWorkflowLifecycle
      after some discovery steps. */
  function BeginFails(s: State, id: Id): State
    requires Starting(s, id)
  {
    if id in s.workflows then s else Spend(Enqueue(s, id), id)
  }

  /** advanceWorkflow publishes the first challenge, unless too many are active. */
  function Insert(s: State, id: Id): State
    requires Starting(s, id)
  {
    if |s.workflows| >= MAX_WORKFLOWS then s
    else Spend(s.(workflows := s.workflows[id := Session(s.begins[id].adapter, s.begins[id].generation, 0)]), id)
  }

  /** The start returns and gives its reservation back. */
  function Release(s: State, id: Id): State
    requires id in s.begins && s.starts > 0
  {
    s.(begins := s.begins - {id}, starts := s.starts - 1)
  }

  /** lockWorkflowForContinue */
  predicate CanContinue(s: State, id: Id) { id in s.workflows && s.workflows[id].call == 0 }

  function LockContinue(s: State, id: Id): State
    requires CanContinue(s, id)
  {
    var call := s.calls + 1;
    s.(calls := call, workflows := s.workflows[id := s.workflows[id].(call := call)],
       continuations := s.continuations[call := Continuation(id, s.workflows[id].generation)])
  }

  /** The session that a continuation locked is still its own. */
  predicate Holds(s: State, call: nat) {
    call in s.continuations && s.continuations[call].id in s.workflows && s.workflows[s.continuations[call].id].call == call
  }

  /** finishWorkflowLifecycle after an error result: the session of the same
      generation goes; a session that is gone has had its event. */
  function ContinueFails(s: State, call: nat): State
    requires call in s.continuations
  {
    var c := s.continuations[call];
    if c.id in s.workflows && s.workflows[c.id].generation == c.generation then Remove(s, c.id) else s
  }

  /** A media result, or a generation change: removeWorkflow. */
  function ContinueEnds(s: State, call: nat): State
    requires call in s.continuations
  {
    var id := s.continuations[call].id;
    if id in s.workflows then Remove(s, id) else s
  }

  /** unlockWorkflowContinue */
  function Unlock(s: State, call: nat): State
    requires call in s.continuations
  {
    var c, t := s.continuations[call], s.(continuations := s.continuations - {call});
    if Holds(s, call) then t.(workflows := t.workflows[c.id := t.workflows[c.id].(call := 0)]) else t
  }

  function Acknowledge(s: State, i: nat): State
    requires i < |s.queue|
  {
    s.(queue := s.queue[..i] + s.queue[i + 1..], acknowledged := s.acknowledged + multiset{s.queue[i].id})
  }

  function IdsOf(queue: seq<Event>): multiset<Id> {
    if queue == [] then multiset{} else IdsOf(queue[..|queue| - 1]) + multiset{queue[|queue| - 1].id}
  }

  function Discard(s: State): State { s.(queue := [], acknowledged := s.acknowledged + IdsOf(s.queue)) }

  datatype Action =
    | AReserve(id: Id, adapter: nat, generation: nat)
    | ABeginFails(id: Id)
    | AInsert(id: Id)
    | ARelease(id: Id)
    | ALockContinue(id: Id)
    | AContinueFails(call: nat)
    | AContinueEnds(call: nat)
    | AUnlock(call: nat)
    /** CancelWorkflow, expiry, a disabled adapter: any active workflow, at any time. */
    | ARemove(id: Id)
    | AAcknowledge(index: nat)
    | ADiscard

  predicate Step(s: State, a: Action, t: State) {
    match a
    case AReserve(id, d, g) => CanReserve(s, id) && t == Reserve(s, id, d, g)
    case ABeginFails(id) => Starting(s, id) && t == BeginFails(s, id)
    case AInsert(id) => Starting(s, id) && t == Insert(s, id)
    case ARelease(id) => id in s.begins && s.starts > 0 && t == Release(s, id)
    case ALockContinue(id) => CanContinue(s, id) && t == LockContinue(s, id)
    case AContinueFails(c) => c in s.continuations && t == ContinueFails(s, c)
    case AContinueEnds(c) => c in s.continuations && t == ContinueEnds(s, c)
    case AUnlock(c) => c in s.continuations && t == Unlock(s, c)
    case ARemove(id) => id in s.workflows && t == Remove(s, id)
    case AAcknowledge(i) => i < |s.queue| && t == Acknowledge(s, i)
    case ADiscard => t == Discard(s)
  }

  function Fresh(): State { State([], map[], map[], map[], 0, 0, 0, {}, multiset{}, multiset{}) }

  // Accounting ----------------------------------------------------------------------

  /** Starts whose reservation still stands for an event to come. */
  function Unspent(begins: map<Id, Begin>): set<Id> { set id | id in begins && !begins[id].spent }

  /** Events queued, plus events that active workflows and unspent starts may still queue. */
  function Claims(s: State): nat { |s.queue| + |s.workflows| + |Unspent(s.begins)| }

  /** The bounds. */
  predicate Counted(s: State) {
    s.starts == |s.begins| && Claims(s) <= MAX_EVENTS && |s.workflows| + |Unspent(s.begins)| <= MAX_WORKFLOWS
  }

  /** Who has had a terminal event, and who has not. */
  ghost predicate Recorded(s: State) {
    && (forall id | id in s.begins :: id in s.used) && (forall id | id in s.workflows :: id in s.used)
    && (forall id :: s.emitted[id] <= 1)
    && (forall id | s.emitted[id] > 0 :: id in s.used)
    && (forall id | id in s.workflows :: s.emitted[id] == 0)
    && (forall id | Starting(s, id) :: s.emitted[id] == 0 && id !in s.workflows)
  }

  ghost predicate Inv(s: State) {
    Counted(s) && Recorded(s) && s.emitted == IdsOf(s.queue) + s.acknowledged
  }

  lemma UnspentIsSmaller(begins: map<Id, Begin>)
    ensures |Unspent(begins)| <= |begins|
  {
    Subset(Unspent(begins), begins.Keys);
    assert |begins.Keys| == |begins|;
  }

  lemma {:induction false} Subset(a: set<Id>, b: set<Id>)
    requires a <= b
    ensures |a| <= |b|
    decreases b
  {
    if a != {} {
      var x :| x in a;
      Subset(a - {x}, b - {x});
    }
  }

  lemma IdsOfLast(queue: seq<Event>, e: Event)
    ensures IdsOf(queue + [e]) == IdsOf(queue) + multiset{e.id}
  {
    assert (queue + [e])[..|queue|] == queue;
  }

  lemma Snoc(front: seq<Event>, back: seq<Event>)
    requires back != []
    ensures front + back == (front + back[..|back| - 1]) + [back[|back| - 1]]
  {
  }

  lemma Cut(queue: seq<Event>, i: nat)
    requires i < |queue|
    ensures queue == queue[..i] + [queue[i]] + queue[i + 1..]
  {
  }

  lemma {:induction false} IdsOfMiddle(front: seq<Event>, e: Event, back: seq<Event>)
    ensures IdsOf(front + [e] + back) == IdsOf(front + back) + multiset{e.id}
  {
    if back == [] {
      assert front + [e] + back == front + [e] && front + back == front;
      IdsOfLast(front, e);
    } else {
      var init, last := back[..|back| - 1], back[|back| - 1];
      IdsOfMiddle(front, e, init);
      Snoc(front + [e], back);
      Snoc(front, back);
      IdsOfLast(front + [e] + init, last);
      IdsOfLast(front + init, last);
    }
  }

  lemma IdsOfRemoved(queue: seq<Event>, i: nat)
    requires i < |queue|
    ensures IdsOf(queue) == IdsOf(queue[..i] + queue[i + 1..]) + multiset{queue[i].id}
  {
    Cut(queue, i);
    IdsOfMiddle(queue[..i], queue[i], queue[i + 1..]);
  }

  /** With a claim to spare, queueing drops nothing. */
  lemma EnqueueKeepsAll(s: State, id: Id)
    requires |s.queue| < MAX_EVENTS
    ensures Enqueue(s, id).queue == s.queue + [Event(id, s.number + 1)]
    ensures IdsOf(Enqueue(s, id).queue) == IdsOf(s.queue) + multiset{id}
  {
    var q := s.queue + [Event(id, s.number + 1)];
    assert q[..|q| - 1] == s.queue;
  }

  lemma OneFewer(workflows: map<Id, Session>, id: Id)
    requires id in workflows
    ensures |workflows - {id}| == |workflows| - 1
  {
    var rest := workflows - {id};
    assert rest.Keys == workflows.Keys - {id};
    assert |rest| == |rest.Keys| && |workflows| == |workflows.Keys|;
  }

  /** One event more for a workflow that has had none. */
  lemma EmittedOnce(emitted: multiset<Id>, id: Id)
    requires (forall k :: emitted[k] <= 1) && emitted[id] == 0
    ensures forall k :: (emitted + multiset{id})[k] == if k == id then 1 else emitted[k]
  {
  }

  lemma RemovedCounted(s: State, id: Id)
    requires Counted(s) && id in s.workflows
    ensures |s.queue| < MAX_EVENTS && Counted(Remove(s, id))
  {
    OneFewer(s.workflows, id);
  }

  /** Queueing one event, with room for it, keeps emitted = queued + acknowledged. */
  lemma EnqueueBalances(s: State, id: Id)
    requires |s.queue| < MAX_EVENTS && s.emitted == IdsOf(s.queue) + s.acknowledged
    ensures Enqueue(s, id).emitted == IdsOf(Enqueue(s, id).queue) + Enqueue(s, id).acknowledged
  {
    EnqueueKeepsAll(s, id);
  }

  lemma RemoveKeeps(s: State, id: Id)
    requires Inv(s) && id in s.workflows
    ensures |s.queue| < MAX_EVENTS && Inv(Remove(s, id))
  {
    RemovedCounted(s, id);
    EnqueueBalances(s.(workflows := s.workflows - {id}), id);
    RemovedRecorded(s, Remove(s, id), id);
  }

  lemma RemovedRecorded(s: State, t: State, id: Id)
    requires Recorded(s) && id in s.workflows && t.begins == s.begins && t.used == s.used
    requires t.workflows == s.workflows - {id} && t.emitted == s.emitted + multiset{id}
    ensures Recorded(t)
  {
    EmittedOnce(s.emitted, id);
  }

  lemma SpendCounts(begins: map<Id, Begin>, id: Id)
    requires id in begins && !begins[id].spent
    ensures var after := begins[id := begins[id].(spent := true)];
      Unspent(after) == Unspent(begins) - {id} && |Unspent(after)| == |Unspent(begins)| - 1 && |after| == |begins|
  {
    var after := begins[id := begins[id].(spent := true)];
    assert id in Unspent(begins);
    assert after.Keys == begins.Keys && |after.Keys| == |begins.Keys|;
  }

  lemma BeginFailsKeeps(s: State, id: Id)
    requires Inv(s) && Starting(s, id)
    ensures |s.queue| < MAX_EVENTS && Inv(BeginFails(s, id))
  {
    SpendCounts(s.begins, id);
    EnqueueKeepsAll(s, id);
  }

  lemma InsertKeeps(s: State, id: Id)
    requires Inv(s) && Starting(s, id)
    ensures Inv(Insert(s, id))
  {
    SpendCounts(s.begins, id);
  }

  lemma OneMoreUnspent(begins: map<Id, Begin>, id: Id, b: Begin)
    requires id !in begins && !b.spent
    ensures |begins[id := b]| == |begins| + 1 && |Unspent(begins[id := b])| == |Unspent(begins)| + 1
  {
    var after := begins[id := b];
    assert Unspent(after) == Unspent(begins) + {id};
    assert after.Keys == begins.Keys + {id} && |after.Keys| == |after| && |begins.Keys| == |begins|;
  }

  lemma ReserveKeeps(s: State, id: Id, adapter: nat, generation: nat)
    requires Inv(s) && CanReserve(s, id)
    ensures Inv(Reserve(s, id, adapter, generation))
  {
    OneMoreUnspent(s.begins, id, Begin(adapter, generation, false));
    UnspentIsSmaller(s.begins);
    assert s.emitted[id] == 0;
  }

  lemma ReleaseKeeps(s: State, id: Id)
    requires Inv(s) && id in s.begins && s.starts > 0
    ensures Inv(Release(s, id))
  {
    var t := Release(s, id);
    assert t.begins.Keys == s.begins.Keys - {id} && |t.begins.Keys| == |s.begins.Keys| - 1;
    assert |t.begins| == |t.begins.Keys| && |s.begins| == |s.begins.Keys|;
    Subset(Unspent(t.begins), Unspent(s.begins));
  }

  lemma SessionKeeps(s: State, id: Id, session: Session, continuations: map<nat, Continuation>, calls: nat)
    requires Inv(s) && id in s.workflows
    ensures Inv(s.(workflows := s.workflows[id := session], continuations := continuations, calls := calls))
  {
    assert s.workflows[id := session].Keys == s.workflows.Keys;
    assert |s.workflows[id := session]| == |s.workflows[id := session].Keys| && |s.workflows| == |s.workflows.Keys|;
  }

  lemma AcknowledgeKeeps(s: State, i: nat)
    requires Inv(s) && i < |s.queue|
    ensures Inv(Acknowledge(s, i))
  {
    IdsOfRemoved(s.queue, i);
  }

  lemma AcknowledgeAllKeeps(s: State)
    requires Inv(s)
    ensures Inv(Discard(s))
  {
  }

  lemma ContinueKeeps(s: State, call: nat)
    requires Inv(s) && call in s.continuations
    ensures Inv(ContinueFails(s, call)) && Inv(ContinueEnds(s, call))
  {
    if s.continuations[call].id in s.workflows { RemoveKeeps(s, s.continuations[call].id); }
  }

  lemma UnlockKeeps(s: State, call: nat)
    requires Inv(s) && call in s.continuations
    ensures Inv(Unlock(s, call))
  {
    var id := s.continuations[call].id;
    if Holds(s, call) { SessionKeeps(s, id, s.workflows[id].(call := 0), s.continuations - {call}, s.calls); }
  }

  /** Every step keeps the accounts, and no step drops an event. */
  lemma StepKeeps(s: State, a: Action, t: State)
    requires Inv(s) && Step(s, a, t)
    ensures Inv(t)
  {
    match a
    case AReserve(id, d, g) => ReserveKeeps(s, id, d, g);
    case ABeginFails(id) => BeginFailsKeeps(s, id);
    case AInsert(id) => InsertKeeps(s, id);
    case ARelease(id) => ReleaseKeeps(s, id);
    case ALockContinue(id) => SessionKeeps(s, id, t.workflows[id], t.continuations, t.calls);
    case AContinueFails(c) => ContinueKeeps(s, c);
    case AContinueEnds(c) => ContinueKeeps(s, c);
    case AUnlock(c) => UnlockKeeps(s, c);
    case ARemove(id) => RemoveKeeps(s, id);
    case AAcknowledge(i) => AcknowledgeKeeps(s, i);
    case ADiscard => AcknowledgeAllKeeps(s);
  }

  ghost predicate Run(states: seq<State>, actions: seq<Action>) {
    && |states| == |actions| + 1 && states[0] == Fresh()
    && forall i | 0 <= i < |actions| :: Step(states[i], actions[i], states[i + 1])
  }

  lemma {:induction false} RunKeeps(states: seq<State>, actions: seq<Action>, i: nat)
    requires Run(states, actions) && i < |states|
    ensures Inv(states[i])
  {
    if i == 0 {
      assert Unspent(map[]) == {};
    } else {
      RunKeeps(states, actions, i - 1);
      StepKeeps(states[i - 1], actions[i - 1], states[i - 1 + 1]);
    }
  }

  /** Terminal events are conserved: in every reachable state each workflow has
      emitted at most one; all emitted events are still queued or were acknowledged;
      a step that queues one finds room, so the oldest is never dropped. */
  lemma EventsAreConserved(states: seq<State>, actions: seq<Action>, i: nat, id: Id)
    requires Run(states, actions) && i < |states|
    ensures states[i].emitted[id] <= 1
    ensures states[i].emitted == IdsOf(states[i].queue) + states[i].acknowledged
    ensures i < |actions| && states[i + 1].emitted != states[i].emitted ==> |states[i].queue| < MAX_EVENTS
    ensures Claims(states[i]) <= MAX_EVENTS && |states[i].workflows| <= MAX_WORKFLOWS
  {
    RunKeeps(states, actions, i);
    if i < |actions| { QueueingFindsRoom(states[i], actions[i], states[i + 1]); }
  }

  lemma QueueingFindsRoom(s: State, a: Action, t: State)
    requires Inv(s) && Step(s, a, t)
    ensures t.emitted != s.emitted ==> |s.queue| < MAX_EVENTS
  {
    match a
    case ABeginFails(id) => BeginFailsKeeps(s, id);
    case AContinueFails(c) => if s.continuations[c].id in s.workflows { RemoveKeeps(s, s.continuations[c].id); }
    case AContinueEnds(c) => if s.continuations[c].id in s.workflows { RemoveKeeps(s, s.continuations[c].id); }
    case ARemove(id) => RemoveKeeps(s, id);
    case _ =>
  }

  lemma RemoveEmits(s: State, id: Id)
    requires Inv(s) && id in s.workflows
    ensures Remove(s, id).emitted[id] == 1 && id in IdsOf(Remove(s, id).queue)
  {
    RemoveKeeps(s, id);
    EnqueueKeepsAll(s.(workflows := s.workflows - {id}), id);
  }

  /** Only a removal takes a workflow out of the table. */
  lemma LeavesByRemoval(s: State, a: Action, t: State, id: Id)
    requires Step(s, a, t) && id in s.workflows && id !in t.workflows
    ensures t == Remove(s, id)
  {
  }

  /** A workflow that was active and no longer is has emitted exactly one event. */
  lemma LeavingEmitsOne(s: State, a: Action, t: State, id: Id)
    requires Inv(s) && Step(s, a, t) && id in s.workflows && id !in t.workflows
    ensures t.emitted[id] == 1 && id in IdsOf(t.queue)
  {
    LeavesByRemoval(s, a, t, id);
    RemoveEmits(s, id);
  }

  // Which steps emit -----------------------------------------------------------------------

  /** The step ends the workflow: its start fails before it was inserted, an active workflow
      of the continuation's own generation fails, an active workflow ends, or is removed. */
  predicate EndsWorkflow(s: State, a: Action, id: Id) {
    || (a.ABeginFails? && a.id == id)
    || (a.AContinueFails? && a.call in s.continuations && s.continuations[a.call].id == id
        && id in s.workflows && s.workflows[id].generation == s.continuations[a.call].generation)
    || (a.AContinueEnds? && a.call in s.continuations && s.continuations[a.call].id == id && id in s.workflows)
    || (a.ARemove? && a.id == id)
  }

  /** The workflow is gone for good, its one event is the last in the queue, and nothing
      else changed. */
  ghost predicate EmitsFor(s: State, t: State, id: Id) {
    && id !in t.workflows && !Starting(t, id)
    && t.queue == s.queue + [Event(id, s.number + 1)] && t.number == s.number + 1
    && t.emitted == s.emitted + multiset{id} && s.emitted[id] == 0
    && (forall k | k != id :: (k in t.workflows <==> k in s.workflows) && (k in s.workflows ==> t.workflows[k] == s.workflows[k]))
    && (forall k | k != id :: Starting(t, k) <==> Starting(s, k))
    && t.begins.Keys == s.begins.Keys && t.continuations == s.continuations
    && (t.starts, t.calls, t.used, t.acknowledged) == (s.starts, s.calls, s.used, s.acknowledged)
  }

  lemma RemoveEmitsFor(s: State, id: Id)
    requires Recorded(s) && |s.queue| < MAX_EVENTS && id in s.workflows
    ensures EmitsFor(s, Remove(s, id), id)
  {
  }

  lemma FailedStartEmitsFor(s: State, id: Id)
    requires Recorded(s) && |s.queue| < MAX_EVENTS && Starting(s, id)
    ensures EmitsFor(s, BeginFails(s, id), id)
  {
  }

  /** A failed continuation ends the active workflow of its own generation; one whose
      workflow is gone, or has been started again, does nothing. */
  lemma FailedContinuationEmits(s: State, call: nat)
    requires Inv(s) && call in s.continuations
    ensures var c, t := s.continuations[call], ContinueFails(s, call);
      if c.id in s.workflows && s.workflows[c.id].generation == c.generation then EmitsFor(s, t, c.id) else t == s
  {
    var id := s.continuations[call].id;
    if id in s.workflows {
      RemovedCounted(s, id);
      RemoveEmitsFor(s, id);
    }
  }

  lemma EndedContinuationEmits(s: State, call: nat)
    requires Inv(s) && call in s.continuations
    ensures var id, t := s.continuations[call].id, ContinueEnds(s, call);
      if id in s.workflows then EmitsFor(s, t, id) else t == s
  {
    var id := s.continuations[call].id;
    if id in s.workflows {
      RemovedCounted(s, id);
      RemoveEmitsFor(s, id);
    }
  }

  /** Every step that ends a workflow emits its event. */
  lemma EndingEmits(s: State, a: Action, t: State, id: Id)
    requires Inv(s) && Step(s, a, t) && EndsWorkflow(s, a, id)
    ensures EmitsFor(s, t, id)
  {
    if a.ABeginFails? {
      BeginFailsKeeps(s, id);
      FailedStartEmitsFor(s, id);
    } else if a.ARemove? {
      RemovedCounted(s, id);
      RemoveEmitsFor(s, id);
    } else if a.AContinueFails? {
      FailedContinuationEmits(s, a.call);
    } else {
      EndedContinuationEmits(s, a.call);
    }
  }

  /** Only such a step emits one. */
  lemma OtherStepsEmitNothing(s: State, a: Action, t: State)
    requires Inv(s) && Step(s, a, t) && forall id :: !EndsWorkflow(s, a, id)
    ensures t.emitted == s.emitted && t.number == s.number && (t.queue == s.queue || a.AAcknowledge? || a.ADiscard?)
    ensures a.AContinueFails? || a.AContinueEnds? ==> t == s
  {
    if a.ABeginFails? || a.ARemove? {
      assert EndsWorkflow(s, a, a.id);
    } else if a.AContinueFails? {
      assert !EndsWorkflow(s, a, s.continuations[a.call].id);
      FailedContinuationEmits(s, a.call);
    } else if a.AContinueEnds? {
      assert !EndsWorkflow(s, a, s.continuations[a.call].id);
      EndedContinuationEmits(s, a.call);
    }
  }

  // The life of one workflow -----------------------------------------------------------------

  datatype Life = Outside | Beginning(adapter: nat, generation: nat) | Active(session: Session)

  /** Where a workflow is; one that has ended is outside for good. */
  function LifeOf(s: State, id: Id): Life {
    if id in s.workflows then Active(s.workflows[id])
    else if Starting(s, id) then Beginning(s.begins[id].adapter, s.begins[id].generation)
    else Outside
  }

  /** The continuation that a step is about, if it is one of this workflow. */
  predicate Continues(s: State, call: nat, id: Id) { call in s.continuations && s.continuations[call].id == id }

  /** What each step does to one workflow: a start inserts it with its own adapter and
      generation or returns without it, a continuation locks it until it ends or is unlocked. */
  predicate Lives(s: State, a: Action, id: Id, before: Life, after: Life) {
    if EndsWorkflow(s, a, id) then after == Outside
    else if a.AReserve? && a.id == id then before == Outside && after == Beginning(a.adapter, a.generation)
    else if a.AInsert? && a.id == id then before.Beginning? && after == Active(Session(before.adapter, before.generation, 0))
    else if a.ALockContinue? && a.id == id then
      before.Active? && before.session.call == 0 && after == Active(before.session.(call := s.calls + 1))
    else if a.AUnlock? && Continues(s, a.call, id) && before.Active? && before.session.call == a.call then
      after == Active(before.session.(call := 0))
    else if a.ARelease? && a.id == id && before.Beginning? then after == Outside
    else after == before
  }

  /** An unspent start always finds room in the table. */
  lemma RoomForStarts(s: State, id: Id)
    requires Inv(s) && Starting(s, id)
    ensures |s.workflows| < MAX_WORKFLOWS
  {
    assert id in Unspent(s.begins);
  }

  lemma ReserveLives(s: State, k: Id, adapter: nat, generation: nat, id: Id)
    requires Inv(s) && CanReserve(s, k)
    ensures LifeOf(Reserve(s, k, adapter, generation), id) == if id == k then Beginning(adapter, generation) else LifeOf(s, id)
    ensures LifeOf(s, k) == Outside
  {
  }

  lemma InsertLives(s: State, k: Id, id: Id)
    requires Inv(s) && Starting(s, k)
    ensures LifeOf(s, k).Beginning?
    ensures LifeOf(Insert(s, k), id) ==
      if id == k then Active(Session(LifeOf(s, k).adapter, LifeOf(s, k).generation, 0)) else LifeOf(s, id)
  {
    RoomForStarts(s, k);
  }

  lemma ReleaseLives(s: State, k: Id, id: Id)
    requires k in s.begins && s.starts > 0
    ensures LifeOf(Release(s, k), id) == if id == k && LifeOf(s, id).Beginning? then Outside else LifeOf(s, id)
  {
  }

  lemma LockLives(s: State, k: Id, id: Id)
    requires CanContinue(s, k)
    ensures var t := LockContinue(s, k);
      && LifeOf(t, id) == (if id == k then Active(s.workflows[k].(call := s.calls + 1)) else LifeOf(s, id)) && t.calls == s.calls + 1
      && t.continuations == s.continuations[s.calls + 1 := Continuation(k, s.workflows[k].generation)]
  {
  }

  lemma UnlockLives(s: State, call: nat, id: Id)
    requires call in s.continuations
    ensures var t := Unlock(s, call);
      && t.continuations == s.continuations - {call} && t.calls == s.calls
      && LifeOf(t, id) == (if Continues(s, call, id) && id in s.workflows && s.workflows[id].call == call
           then Active(s.workflows[id].(call := 0)) else LifeOf(s, id))
  {
  }

  lemma StartsLive(s: State, a: Action, t: State, id: Id)
    requires Inv(s) && Step(s, a, t) && (a.AReserve? || a.AInsert? || a.ARelease?)
    ensures Lives(s, a, id, LifeOf(s, id), LifeOf(t, id))
  {
    if a.AReserve? { ReserveLives(s, a.id, a.adapter, a.generation, id); }
    else if a.AInsert? { InsertLives(s, a.id, id); }
    else { ReleaseLives(s, a.id, id); }
  }

  /** What a continuation holds: the workflow that it locked, with the generation of then. */
  lemma LocksLive(s: State, a: Action, t: State, id: Id)
    requires Step(s, a, t) && (a.ALockContinue? || a.AUnlock?)
    ensures Lives(s, a, id, LifeOf(s, id), LifeOf(t, id))
    ensures a.ALockContinue? ==>
      t.continuations == s.continuations[s.calls + 1 := Continuation(a.id, s.workflows[a.id].generation)] && t.calls == s.calls + 1
    ensures a.AUnlock? ==> t.continuations == s.continuations - {a.call} && t.calls == s.calls
  {
    if a.ALockContinue? { LockLives(s, a.id, id); } else { UnlockLives(s, a.call, id); }
  }

  lemma EventsLive(s: State, a: Action, t: State, id: Id)
    requires Inv(s) && Step(s, a, t) && (a.ABeginFails? || a.AContinueFails? || a.AContinueEnds? || a.ARemove?)
    ensures Lives(s, a, id, LifeOf(s, id), LifeOf(t, id))
  {
    if k :| EndsWorkflow(s, a, k) {
      EndingEmits(s, a, t, k);
    } else {
      OtherStepsEmitNothing(s, a, t);
      if a.ABeginFails? || a.ARemove? { assert EndsWorkflow(s, a, a.id); }
    }
  }

  /** The life cycle, over every step and every workflow. */
  lemma LifeCycle(s: State, a: Action, t: State, id: Id)
    requires Inv(s) && Step(s, a, t)
    ensures Lives(s, a, id, LifeOf(s, id), LifeOf(t, id))
  {
    if a.AReserve? || a.AInsert? || a.ARelease? { StartsLive(s, a, t, id); }
    else if a.ALockContinue? || a.AUnlock? { LocksLive(s, a, t, id); }
    else if a.ABeginFails? || a.AContinueFails? || a.AContinueEnds? || a.ARemove? { EventsLive(s, a, t, id); }
  }

  /** Acknowledging takes one event out of the queue and leaves the others in order;
      discarding takes all; both count as acknowledged. */
  lemma AcknowledgedLeave(s: State, a: Action, t: State)
    requires Step(s, a, t)
    ensures a.AAcknowledge? ==>
      && t.queue == s.queue[..a.index] + s.queue[a.index + 1..] && t.acknowledged == s.acknowledged + multiset{s.queue[a.index].id}
      && t.workflows == s.workflows && t.begins == s.begins
    ensures a.ADiscard? ==>
      t.queue == [] && t.acknowledged == s.acknowledged + IdsOf(s.queue) && t.workflows == s.workflows && t.begins == s.begins
  {
  }

  // The literal count ---------------------------------------------------------------------

  /** `n` starts that failed at once, with nobody acknowledging. */
  ghost predicate Failures(s: State, n: nat) {
    && Inv(s) && |s.queue| == n && s.workflows == map[] && s.begins == map[] && s.starts == 0
    && forall id | id in s.used :: id < n
  }

  lemma {:induction false} FailuresAreReachable(n: nat) returns (states: seq<State>, actions: seq<Action>)
    requires n < MAX_EVENTS
    ensures Run(states, actions) && Failures(states[|actions|], n)
  {
    if n == 0 {
      states, actions := [Fresh()], [];
      RunKeeps(states, actions, 0);
    } else {
      states, actions := FailuresAreReachable(n - 1);
      states, actions := OneMoreFailure(states, actions, n - 1);
    }
  }

  lemma FailureReturns(s: State, id: Id)
    requires Failures(s, id) && id < MAX_EVENTS
    ensures CanReserve(s, id)
    ensures var r := Reserve(s, id, 0, 1);
      && Starting(r, id) && BeginFails(r, id).starts == 1 && id in BeginFails(r, id).begins
      && |BeginFails(r, id).queue| == id + 1 && BeginFails(r, id).workflows == map[]
      && Release(BeginFails(r, id), id).begins == map[]
  {
    var r := Reserve(s, id, 0, 1);
    assert Release(BeginFails(r, id), id).begins == map[];
  }

  lemma OneMoreFailure(before: seq<State>, past: seq<Action>, id: Id) returns (states: seq<State>, actions: seq<Action>)
    requires Run(before, past) && Failures(before[|past|], id) && id < MAX_EVENTS
    ensures Run(states, actions) && Failures(states[|actions|], id + 1)
  {
    var s := before[|past|];
    FailureReturns(s, id);
    var r := Reserve(s, id, 0, 1);
    var f := BeginFails(r, id);
    states, actions := Extend(before, past, AReserve(id, 0, 1), r);
    states, actions := Extend(states, actions, ABeginFails(id), f);
    states, actions := Extend(states, actions, ARelease(id), Release(f, id));
    RunKeeps(states, actions, |actions|);
  }

  lemma Extend(states: seq<State>, actions: seq<Action>, a: Action, t: State) returns (ss: seq<State>, bs: seq<Action>)
    requires Run(states, actions) && Step(states[|actions|], a, t)
    ensures Run(ss, bs) && ss[|bs|] == t
  {
    ss, bs := states + [t], actions + [a];
    forall i | 0 <= i < |bs| ensures Step(ss[i], bs[i], ss[i + 1]) {
      if i < |actions| { assert Step(states[i], actions[i], states[i + 1]); }
    }
  }

  /** And it is exceeded in a run: 511 unacknowledged failures, then one more start
      that has failed and not yet returned. */
  lemma LiteralCountIsExceeded() returns (states: seq<State>, actions: seq<Action>)
    ensures Run(states, actions)
    ensures var s := states[|actions|]; |s.queue| + |s.workflows| + s.starts == MAX_EVENTS + 1
  {
    states, actions := FailuresAreReachable(MAX_EVENTS - 1);
    var s := states[|actions|];
    FailureReturns(s, 511);
    var r := Reserve(s, 511, 0, 1);
    states, actions := Extend(states, actions, AReserve(511, 0, 1), r);
    states, actions := Extend(states, actions, ABeginFails(511), BeginFails(r, 511));
  }

  /** The queue as the Host holds it. */
  class LifecycleQueue {
    var events: seq<Event>
    var number: nat

    constructor ()
      ensures events == [] && number == 0
    {
      events, number := [], 0;
    }

    /** queueWorkflowLifecycleLocked: shift out the oldest event if the queue is full. */
    method Queue(id: Id)
      modifies this
      ensures forall s: State | s.queue == old(events) && s.number == old(number) ::
        events == Enqueue(s, id).queue && number == Enqueue(s, id).number
    {
      number := number + 1;
      var event := Event(id, number);
      if |events| >= MAX_EVENTS {
        var shifted: seq<Event> := [];
        for i := 1 to |events|
          invariant shifted == events[1..i] && number == old(number) + 1 && events == old(events)
        {
          shifted := shifted + [events[i]];
        }
        events := shifted;
      }
      events := events + [event];
    }

    /** AckWorkflowLifecycleEvent removes the first event of that number. */
    method AcknowledgeEvent(number: nat) returns (found: bool, ghost index: nat)
      modifies this`events
      ensures found <==> exists i | 0 <= i < |old(events)| :: old(events)[i].number == number
      ensures found ==> index < |old(events)| && old(events)[index].number == number && (forall j | 0 <= j < index :: old(events)[j].number != number)
      ensures found ==> forall s: State | s.queue == old(events) :: events == Acknowledge(s, index).queue
      ensures !found ==> events == old(events)
    {
      index := 0;
      for i := 0 to |events|
        invariant events == old(events)
        invariant forall j | 0 <= j < i :: events[j].number != number
      {
        if events[i].number == number {
          index := i;
          events := events[..i] + events[i + 1..];
          return true, index;
        }
      }
      return false, index;
    }
  }
}
