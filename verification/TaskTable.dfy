/** The scheduler's own table: tasks, the ready list, worker counters and the
    playlist generation clock. Each function is one critical section of
    internal/acquire/segments.go. */
module TaskTable {
  import opened Archive
  import A = Accounting

  const MAX_WORKERS: nat := 4
  const MAX_TASKS: nat := 128
  const SEGMENT_ATTEMPTS: nat := 3
  const MAX_REFRESH_CYCLES: nat := 3

  datatype Phase =
    Queued | InFlight | Buffered | Persisting | Refreshing | RetryWait | AwaitManifest | GapCommitting

  datatype Task = Task(
    ordinal: Uint64, available: bool, observed: bool, observedGen: nat, requiredGen: nat, awaiting: bool,
    attempt: nat, cycles: nat, phase: Phase, token: nat, preloaded: bool)

  /** Identity of a task: an ordinal is allocated once. */
  datatype Ref = Ref(key: Key, ordinal: Uint64)

  /** Which playlist generation the scheduler accepts, and whether it has ended. */
  datatype Clock = Clock(known: bool, latest: nat, ending: bool, endingGen: nat)

  datatype Table = Table(
    tasks: map<Key, Task>, ready: seq<Ref>, next: Uint64, workers: nat, busy: int, closed: bool)

  /** The table still holds this very task. */
  predicate Live(tasks: map<Key, Task>, r: Ref) {
    r.key in tasks && tasks[r.key].ordinal == r.ordinal
  }

  /** noteMediaGeneration */
  function Note(c: Clock, gen: nat): Clock {
    if !c.known || gen > c.latest
    then Clock(true, gen, c.ending && gen <= c.endingGen, c.endingGen)
    else c
  }

  /** manifestGenerationCurrentLocked: the verdict, and what it does to the clock. */
  predicate Current(c: Clock, media: nat, gen: nat) {
    media == gen && !(c.known && gen < c.latest)
  }

  function Checked(c: Clock, media: nat, gen: nat): Clock {
    if Current(c, media, gen) then Note(c, gen) else c
  }

  /** growIfSaturatedLocked: a burst worker when all workers are busy. */
  function Grow(t: Table): Table {
    if |t.ready| > 0 && t.busy == t.workers && t.workers < MAX_WORKERS && !t.closed
    then t.(workers := t.workers + 1) else t
  }

  function Put(t: Table, k: Key, task: Task): Table {
    t.(tasks := t.tasks[k := task])
  }

  function Drop(t: Table, k: Key): Table {
    t.(tasks := t.tasks - {k})
  }

  /** Make the task ready for a worker. */
  function Enqueue(t: Table, k: Key, task: Task): Table {
    Grow(t.(tasks := t.tasks[k := task.(phase := Queued, awaiting := false)], ready := t.ready + [Ref(k, task.ordinal)]))
  }

  predicate HeadIsStale(t: Table) {
    |t.ready| > 0 && !(Live(t.tasks, t.ready[0]) && t.tasks[t.ready[0].key].phase == Queued)
  }

  /** A worker takes the first ready task. */
  function TakeHead(t: Table): Table
    requires |t.ready| > 0
  {
    var r := t.ready[0];
    if HeadIsStale(t) then t.(ready := t.ready[1..])
    else Grow(t.(tasks := t.tasks[r.key := t.tasks[r.key].(phase := InFlight)], ready := t.ready[1..], busy := t.busy + 1))
  }

  datatype Admission = Admitted(table: Table) | Full | OrdinalOverflow

  function NewTask(ordinal: Uint64, gen: nat): Task {
    Task(ordinal, true, true, gen, 0, false, 0, 0, Queued, 0, false)
  }

  /** Discovery of one offered entry that is neither archived nor a gap. */
  function Discover(t: Table, k: Key, gen: nat): Admission {
    if k in t.tasks then
      var task := t.tasks[k];
      if task.phase == GapCommitting then Admitted(t)
      else
        var seen := task.(available := true, observed := true, observedGen := gen);
        Admitted(if task.awaiting && gen >= task.requiredGen then Enqueue(t, k, seen) else Put(t, k, seen))
    else if |t.tasks| >= MAX_TASKS then Full
    else if t.next == 0 || t.next == MAX_UINT64 then OrdinalOverflow
    else Admitted(Enqueue(t.(next := t.next + 1), k, NewTask(t.next, gen)))
  }

  predicate Waits(p: Phase) { p == RetryWait || p == Queued || p == AwaitManifest }

  predicate Offered(playlist: seq<MediaSegment>, q: Uint64) {
    A.Present(playlist, q) && !A.GapMarked(playlist, q)
  }

  /** The source no longer offers this object and will not offer it again. */
  predicate Departs(k: Key, task: Task, epoch: Uint64, playlist: seq<MediaSegment>)
    requires playlist != []
  {
    && k.epoch <= epoch && !task.preloaded
    && !(k.epoch == epoch && Offered(playlist, k.sequence))
    && (k.epoch < epoch || A.MaxSequence(playlist) > k.sequence || A.GapMarked(playlist, k.sequence))
  }

  /** observeAtGeneration on one task. */
  function SweepTask(k: Key, task: Task, epoch: Uint64, playlist: seq<MediaSegment>): Task
    requires playlist != []
  {
    if k.epoch > epoch then task
    else if task.preloaded then task.(available := true)
    else if Departs(k, task, epoch, playlist) then
      if Waits(task.phase)
      then task.(available := false, token := task.token + 1, phase := GapCommitting, awaiting := false)
      else task.(available := false)
    else if k.epoch == epoch && Offered(playlist, k.sequence) then task.(available := true)
    else task
  }

  function Sweep(tasks: map<Key, Task>, epoch: Uint64, playlist: seq<MediaSegment>): (r: map<Key, Task>)
    requires playlist != []
    ensures r.Keys == tasks.Keys
  {
    map k | k in tasks :: SweepTask(k, tasks[k], epoch, playlist)
  }

  /** Tasks that became gaps between two tables of the same tasks. */
  function Expired(before: map<Key, Task>, after: map<Key, Task>): set<Ref> {
    set k | k in before && k in after && before[k].phase != GapCommitting && after[k].phase == GapCommitting :: Ref(k, before[k].ordinal)
  }

  predicate QueuedRefs(tasks: map<Key, Task>, ready: seq<Ref>) {
    && (forall i, j | 0 <= i < j < |ready| :: ready[i] != ready[j])
    && (forall i | 0 <= i < |ready| :: Live(tasks, ready[i]) && tasks[ready[i].key].phase == Queued)
    && (forall k | k in tasks && tasks[k].phase == Queued :: Ref(k, tasks[k].ordinal) in ready)
  }

  predicate InOrdinalOrder(ready: seq<Ref>) {
    forall i, j | 0 <= i < j < |ready| :: ready[i].ordinal <= ready[j].ordinal
  }

  /** The ready list after a sweep: rebuilt in ordinal order if anything expired. */
  predicate Rebuilt(t: Table, tasks: map<Key, Task>, ready: seq<Ref>) {
    if Expired(t.tasks, tasks) == {} then ready == t.ready else QueuedRefs(tasks, ready) && InOrdinalOrder(ready)
  }

  /** The refreshed playlist that this task waits for has been observed. */
  predicate Refreshed(task: Task) {
    task.available && task.observed && task.observedGen >= task.requiredGen
  }

  /** endList on one task. */
  function EndTask(task: Task): Task {
    if task.phase != AwaitManifest then task
    else if Refreshed(task) then task.(awaiting := false, phase := Queued)
    else task.(available := false, token := task.token + 1, awaiting := false, phase := GapCommitting)
  }

  function EndTasks(tasks: map<Key, Task>): (r: map<Key, Task>)
    ensures r.Keys == tasks.Keys
  {
    map k | k in tasks :: EndTask(tasks[k])
  }

  /** The tasks that endList makes ready again, in some order. */
  predicate Requeues(tasks: map<Key, Task>, requeued: seq<Ref>) {
    && (forall i, j | 0 <= i < j < |requeued| :: requeued[i] != requeued[j])
    && (forall r | r in requeued :: Live(tasks, r) && tasks[r.key].phase == AwaitManifest && Refreshed(tasks[r.key]))
    && (forall k | k in tasks && tasks[k].phase == AwaitManifest && Refreshed(tasks[k]) :: Ref(k, tasks[k].ordinal) in requeued)
  }

  function EndListTable(t: Table, requeued: seq<Ref>): Table {
    var ended := t.(tasks := EndTasks(t.tasks), ready := t.ready + requeued);
    if requeued == [] then ended else Grow(ended)
  }

  /** awaitManifest, once the clock is up to date. */
  function AwaitNext(t: Table, k: Key, ending: bool): Table
    requires k in t.tasks
  {
    var task := t.tasks[k];
    if Refreshed(task) then Enqueue(t, k, task)
    else if !ending then Put(t, k, task.(phase := AwaitManifest, awaiting := true))
    else Put(t, k, task.(phase := GapCommitting))
  }

  /** A task whose fetch failed: a gap once the source no longer offers it or the
      stream has ended, otherwise another attempt after a delay. */
  function AfterFailure(task: Task, ending: bool): Task {
    if !task.available then task.(phase := GapCommitting)
    else if ending && task.attempt + 1 >= SEGMENT_ATTEMPTS then task.(attempt := task.attempt + 1, phase := GapCommitting)
    else task.(attempt := task.attempt + 1, phase := RetryWait, token := task.token + 1)
  }

  /** acquire refuses a task whose playlist entry is not of the current source. */
  predicate Outdated(task: Task, media: nat) {
    !task.observed || task.observedGen != media || task.observedGen < task.requiredGen
  }

  function Demand(task: Task, gen: nat): Task {
    task.(requiredGen := if gen > task.requiredGen then gen else task.requiredGen)
  }

  /** awaitCurrentGeneration */
  function AwaitGeneration(task: Task, media: nat): Task {
    if !task.available || !task.observed || task.observedGen < media
    then Demand(task, media).(available := false, observed := false)
    else Demand(task, media)
  }
}
