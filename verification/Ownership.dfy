/** Who holds which task. In every reachable state the ready list is exactly the
    queued tasks, and every other task is held by exactly the goroutine, job or
    timer that its phase calls for. */
module Ownership {
  import opened Archive
  import opened TaskTable
  import opened Acquisition

  /** The phases in which a worker at `stage` may find its task. */
  predicate Fits(stage: Stage, phase: Phase) {
    match stage
    case Gate => phase == InFlight
    case Fetch(_, _) => phase == InFlight
    case Refresh(_) => phase == Refreshing
    case Submit => phase == Buffered
    case Submitted => phase == Buffered
    case Awaiting => phase == InFlight || phase == Refreshing
    case Gap(_) => phase == GapCommitting
    case Leaving(PersistQueued) => phase == Persisting
    case Leaving(Removed) => false
    case Leaving(FetchFailed) => phase == InFlight
    case Leaving(AwaitsManifest) => phase == InFlight || phase == Refreshing
    case Leaving(RefreshExhausted) => phase == InFlight || phase == Refreshing
    case Leaving(_) => phase == InFlight || phase == Buffered
  }

  /** Up to these stages the worker is the task's only owner. */
  predicate Owning(stage: Stage) {
    match stage
    case Submitted => false
    case Leaving(PersistQueued) => false
    case Leaving(Removed) => false
    case _ => true
  }

  ghost predicate TasksOk(t: Table) {
    && (forall k | k in t.tasks :: t.tasks[k].ordinal < t.next)
    && (forall k | k in t.tasks :: t.tasks[k].awaiting <==> t.tasks[k].phase == AwaitManifest)
  }

  ghost predicate BoundsOk(t: Table, crew: multiset<Worker>) {
    |t.tasks| <= MAX_TASKS && |crew| <= t.workers <= MAX_WORKERS
  }

  predicate On(w: Worker, k: Key) { w.Busy? && w.ref.key == k }

  /** Workers on `k`: each task has one at most, at a stage that fits its phase. */
  ghost predicate CrewOn(t: Table, crew: multiset<Worker>, k: Key) {
    && (forall w | w in crew && On(w, k) :: crew[w] == 1 && w.ref.ordinal < t.next)
    && (forall v, w | v in crew && w in crew && On(v, k) && On(w, k) && v.ref == w.ref :: v == w)
    && (forall w | w in crew && On(w, k) && Live(t.tasks, w.ref) :: Fits(w.stage, t.tasks[k].phase))
    && (forall w | w in crew && On(w, k) && Owning(w.stage) :: Live(t.tasks, w.ref))
  }

  /** Ingest jobs on `k`: one at most, and only after its worker let go. */
  ghost predicate JobsOn(t: Table, crew: multiset<Worker>, jobs: multiset<Job>, k: Key) {
    && (forall j | j in jobs && j.ref.key == k :: jobs[j] == 1 && Live(t.tasks, j.ref) &&
          (t.tasks[k].phase == Buffered || t.tasks[k].phase == Persisting))
    && (forall i, j | i in jobs && j in jobs && i.ref.key == k && i.ref == j.ref :: i == j)
    && (forall j, w | j in jobs && w in crew && j.ref.key == k && On(w, k) && w.ref == j.ref :: !Owning(w.stage))
  }

  /** Retry timers on `k`: one at most carries the task's current token, and then
      the task waits for it. */
  ghost predicate TimersOn(t: Table, timers: multiset<Timer>, k: Key) {
    forall m | m in timers && m.ref.key == k ::
      && m.ref.ordinal < t.next
      && (Live(t.tasks, m.ref) ==>
          && m.token <= t.tasks[k].token
          && (m.token == t.tasks[k].token ==> timers[m] == 1 && t.tasks[k].phase == RetryWait))
  }

  /** Gap commits on `k`: one at most, and none beside a worker. */
  ghost predicate GappersOn(t: Table, crew: multiset<Worker>, gappers: multiset<Gapper>, k: Key) {
    && (forall g | g in gappers && g.ref.key == k :: gappers[g] == 1 && Live(t.tasks, g.ref) && t.tasks[k].phase == GapCommitting)
    && (forall g, h | g in gappers && h in gappers && g.ref.key == k && g.ref == h.ref :: g == h)
    && (forall g, w | g in gappers && w in crew && g.ref.key == k && On(w, k) :: w.ref != g.ref)
  }

  ghost predicate WorkerHolds(crew: multiset<Worker>, r: Ref) {
    exists w :: w in crew && w.Busy? && w.ref == r
  }

  ghost predicate JobHolds(jobs: multiset<Job>, r: Ref) {
    Job(r, false) in jobs || Job(r, true) in jobs
  }

  ghost predicate GapperHolds(gappers: multiset<Gapper>, r: Ref) {
    Gapper(r, false) in gappers || Gapper(r, true) in gappers
  }

  /** The task has the holder that its phase calls for. */
  ghost predicate Held(p: Pool, r: Ref, task: Task) {
    match task.phase
    case InFlight => WorkerHolds(p.crew, r)
    case Refreshing => WorkerHolds(p.crew, r)
    case Buffered => WorkerHolds(p.crew, r)
    case Persisting => JobHolds(p.jobs, r)
    case RetryWait => task.available && Timer(r, task.token) in p.timers
    case GapCommitting => WorkerHolds(p.crew, r) || GapperHolds(p.gappers, r)
    case _ => true
  }

  /** No task is held twice. */
  ghost predicate Exclusive(t: Table, p: Pool, k: Key) {
    CrewOn(t, p.crew, k) && JobsOn(t, p.crew, p.jobs, k) && TimersOn(t, p.timers, k) && GappersOn(t, p.crew, p.gappers, k)
  }

  /** No task is stranded. */
  ghost predicate HeldAt(t: Table, p: Pool, k: Key) {
    (k in t.tasks ==> Held(p, Ref(k, t.tasks[k].ordinal), t.tasks[k])) && SubmittedOn(t, p, k)
  }

  /** What a worker handed over is in the ingest queue for as long as the task is
      there, and no fetch returns as canceled. */
  ghost predicate SubmittedOn(t: Table, p: Pool, k: Key) {
    forall w | w in p.crew && On(w, k) ::
      w.stage != Leaving(Cancelled) && (w.stage == Submitted && Live(t.tasks, w.ref) ==> JobHolds(p.jobs, w.ref))
  }

  /** While the scheduler runs, every task is held, and never twice. Once it is
      canceled goroutines leave without finishing and `close` collects the rest. */
  ghost predicate Owned(t: Table, p: Pool, running: bool) {
    && TasksOk(t) && QueuedRefs(t.tasks, t.ready) && BoundsOk(t, p.crew)
    && (forall k :: Exclusive(t, p, k))
    && (running ==> forall k :: HeldAt(t, p, k))
  }

  ghost predicate Inv(s: State) {
    Owned(s.table, s.pool, !s.canceled) && (s.table.closed ==> s.canceled)
  }

  // Framing -----------------------------------------------------------------------

  /** Nothing about `k` changed. */
  ghost predicate SameAt(t: Table, p: Pool, u: Table, q: Pool, k: Key) {
    && (k in t.tasks <==> k in u.tasks) && (k in t.tasks ==> t.tasks[k] == u.tasks[k]) && t.next <= u.next
    && (forall w | On(w, k) :: p.crew[w] == q.crew[w])
    && (forall j: Job | j.ref.key == k :: p.jobs[j] == q.jobs[j])
    && (forall m: Timer | m.ref.key == k :: p.timers[m] == q.timers[m])
    && (forall g: Gapper | g.ref.key == k :: p.gappers[g] == q.gappers[g])
  }

  lemma FrameExclusive(t: Table, p: Pool, u: Table, q: Pool, k: Key)
    requires SameAt(t, p, u, q, k) && Exclusive(t, p, k)
    ensures Exclusive(u, q, k)
  {
    assert forall r: Ref | r.key == k :: Live(t.tasks, r) <==> Live(u.tasks, r);
  }

  lemma FrameHeld(t: Table, p: Pool, u: Table, q: Pool, k: Key)
    requires SameAt(t, p, u, q, k) && HeldAt(t, p, k)
    ensures HeldAt(u, q, k)
  {
    if k in t.tasks {
      var r := Ref(k, t.tasks[k].ordinal);
      if WorkerHolds(p.crew, r) {
        var w :| w in p.crew && w.Busy? && w.ref == r;
        assert On(w, k) && w in q.crew;
      }
    }
  }

  /** A step that touches one key keeps the invariant if it does so on that key. */
  lemma OneKey(t: Table, p: Pool, u: Table, q: Pool, k: Key, running: bool, after: bool)
    requires Owned(t, p, running) && (after ==> running)
    requires TasksOk(u) && QueuedRefs(u.tasks, u.ready) && BoundsOk(u, q.crew)
    requires forall l | l != k :: SameAt(t, p, u, q, l)
    requires Exclusive(u, q, k) && (after ==> HeldAt(u, q, k))
    ensures Owned(u, q, after)
  {
    forall l ensures Exclusive(u, q, l) && (after ==> HeldAt(u, q, l)) {
      if l != k {
        FrameExclusive(t, p, u, q, l);
        if after { FrameHeld(t, p, u, q, l); }
      }
    }
  }

  lemma PutKeepsTasks(t: Table, k: Key, after: Task)
    requires TasksOk(t) && k in t.tasks && after.ordinal == t.tasks[k].ordinal
    requires after.awaiting <==> after.phase == AwaitManifest
    ensures TasksOk(Put(t, k, after)) && |Put(t, k, after).tasks| == |t.tasks|
  {
    assert Put(t, k, after).tasks.Keys == t.tasks.Keys;
  }

  lemma PutKeepsReady(t: Table, k: Key, after: Task)
    requires QueuedRefs(t.tasks, t.ready) && k in t.tasks && after.ordinal == t.tasks[k].ordinal
    requires t.tasks[k].phase == Queued <==> after.phase == Queued
    ensures QueuedRefs(Put(t, k, after).tasks, t.ready)
  {
    var u := Put(t, k, after);
    forall i | 0 <= i < |t.ready| ensures Live(u.tasks, t.ready[i]) && u.tasks[t.ready[i].key].phase == Queued {
      assert Live(t.tasks, t.ready[i]);
    }
  }

  lemma DropKeepsTable(t: Table, k: Key)
    requires TasksOk(t) && QueuedRefs(t.tasks, t.ready) && k in t.tasks && t.tasks[k].phase != Queued
    ensures var u := Drop(t, k); TasksOk(u) && QueuedRefs(u.tasks, u.ready) && |u.tasks| < |t.tasks|
  {
    var u := Drop(t, k);
    forall i | 0 <= i < |t.ready| ensures Live(u.tasks, t.ready[i]) && u.tasks[t.ready[i].key].phase == Queued {
      assert Live(t.tasks, t.ready[i]);
    }
    assert u.tasks.Keys == t.tasks.Keys - {k};
    assert |u.tasks.Keys| == |t.tasks.Keys| - 1;
  }

  lemma EnqueueKeepsTasks(t: Table, k: Key, task: Task)
    requires TasksOk(t) && task.ordinal < t.next
    ensures var u := Enqueue(t, k, task); TasksOk(u) && |u.tasks| == |t.tasks| + if k in t.tasks then 0 else 1
  {
    var u := Enqueue(t, k, task);
    assert u.tasks == t.tasks[k := task.(phase := Queued, awaiting := false)];
    assert k in t.tasks ==> u.tasks.Keys == t.tasks.Keys;
  }

  lemma EnqueueKeepsReady(t: Table, k: Key, task: Task)
    requires QueuedRefs(t.tasks, t.ready)
    requires k in t.tasks ==> t.tasks[k].phase != Queued
    ensures var u := Enqueue(t, k, task); QueuedRefs(u.tasks, u.ready)
  {
    var u, r := Enqueue(t, k, task), Ref(k, task.ordinal);
    assert u.ready == t.ready + [r] && u.tasks == t.tasks[k := task.(phase := Queued, awaiting := false)];
    forall i | 0 <= i < |t.ready| ensures t.ready[i].key != k && Live(u.tasks, t.ready[i]) && u.tasks[t.ready[i].key].phase == Queued {
      assert Live(t.tasks, t.ready[i]);
    }
    forall l | l in u.tasks && u.tasks[l].phase == Queued ensures Ref(l, u.tasks[l].ordinal) in u.ready {
      if l == k { assert u.ready[|t.ready|] == r; } else { assert Ref(l, t.tasks[l].ordinal) in t.ready; }
    }
  }

  lemma SwapCounts(crew: multiset<Worker>, a: Worker, b: Worker)
    requires a in crew
    ensures |Swap(crew, a, b)| == |crew|
    ensures forall v | v != a && v != b :: Swap(crew, a, b)[v] == crew[v]
    ensures a != b ==> Swap(crew, a, b)[a] == crew[a] - 1 && Swap(crew, a, b)[b] == crew[b] + 1
    ensures a == b ==> Swap(crew, a, b) == crew
  {
    assert |crew - multiset{a}| == |crew| - 1;
  }

  // Steps of a worker ----------------------------------------------------------------

  /** The owner of a task is alone with it. */
  lemma OwnerIsAlone(t: Table, p: Pool, w: Worker)
    requires w in p.crew && w.Busy? && Owning(w.stage) && Exclusive(t, p, w.ref.key)
    ensures Live(t.tasks, w.ref) && Fits(w.stage, t.tasks[w.ref.key].phase)
    ensures forall j | j in p.jobs :: j.ref.key != w.ref.key
    ensures forall g | g in p.gappers :: g.ref.key != w.ref.key
    ensures forall v | v in p.crew && On(v, w.ref.key) && v != w :: !Live(t.tasks, v.ref) && !Owning(v.stage)
  {
    var k := w.ref.key;
    assert On(w, k);
    assert forall j | j in p.jobs && j.ref.key == k :: j.ref == w.ref;
    assert forall g | g in p.gappers && g.ref.key == k :: g.ref == w.ref;
    forall v | v in p.crew && On(v, k) && v != w ensures !Live(t.tasks, v.ref) {
      if v.ref == w.ref { assert false; }
    }
  }

  /** The task `k` before and after a step of its owner. */
  ghost predicate OwnerEdits(t: Table, u: Table, k: Key) {
    && k in t.tasks && t.next <= u.next
    && (forall l | l != k :: (l in t.tasks <==> l in u.tasks) && (l in t.tasks ==> t.tasks[l] == u.tasks[l]))
    && (k in u.tasks ==> u.tasks[k].ordinal == t.tasks[k].ordinal && u.tasks[k].token >= t.tasks[k].token)
  }

  lemma OwnerExclusive(t: Table, p: Pool, u: Table, q: Pool, w: Worker, v: Worker)
    requires w in p.crew && w.Busy? && Owning(w.stage) && Exclusive(t, p, w.ref.key)
    requires v.Busy? ==> v.ref == w.ref && (Live(u.tasks, w.ref) ==> Fits(v.stage, u.tasks[w.ref.key].phase))
    requires v.Busy? && Owning(v.stage) ==> Live(u.tasks, w.ref)
    requires OwnerEdits(t, u, w.ref.key)
    requires forall x: Worker | x.Busy? :: q.crew[x] == Swap(p.crew, w, v)[x]
    requires q.jobs == p.jobs && q.gappers == p.gappers && TimersOn(u, q.timers, w.ref.key)
    ensures Exclusive(u, q, w.ref.key)
  {
    OwnerIsAlone(t, p, w);
    OwnerCrew(t, p, q, w, v);
  }

  /** Who works on the owner's task after it has moved: the owner, once, and whoever did before. */
  lemma OwnerCrew(t: Table, p: Pool, q: Pool, w: Worker, v: Worker)
    requires w in p.crew && w.Busy? && Owning(w.stage) && Exclusive(t, p, w.ref.key) && (v.Busy? ==> v.ref == w.ref)
    requires forall x: Worker | x.Busy? :: q.crew[x] == Swap(p.crew, w, v)[x]
    ensures forall x | x in q.crew && On(x, w.ref.key) :: x == v || (x in p.crew && x != w && q.crew[x] == p.crew[x])
    ensures v.Busy? ==> q.crew[v] == 1
  {
    var k := w.ref.key;
    OwnerIsAlone(t, p, w);
    SwapCounts(p.crew, w, v);
    assert p.crew[w] == 1 by { assert On(w, k); }
    forall x | x in q.crew && On(x, k) ensures x == v || (x in p.crew && x != w && q.crew[x] == p.crew[x]) {
      assert x in Swap(p.crew, w, v);
    }
    assert v.Busy? && v != w ==> v !in p.crew by { if v.Busy? && v in p.crew { assert On(v, k); } }
    assert v.Busy? ==> q.crew[v] == 1 by { assert v.Busy? ==> q.crew[v] == Swap(p.crew, w, v)[v]; }
  }

  lemma OwnTimersOn(t: Table, u: Table, p: Pool, k: Key)
    requires TimersOn(t, p.timers, k) && OwnerEdits(t, u, k) && t.tasks[k].phase != RetryWait
    ensures TimersOn(u, p.timers, k)
  {
  }

  lemma OwnerSame(t: Table, p: Pool, u: Table, q: Pool, w: Worker, v: Worker, l: Key)
    requires w in p.crew && w.Busy? && (v.Busy? ==> v.ref == w.ref) && l != w.ref.key && OwnerEdits(t, u, w.ref.key)
    requires forall x: Worker | x.Busy? :: q.crew[x] == Swap(p.crew, w, v)[x]
    requires q.jobs == p.jobs && q.gappers == p.gappers
    requires forall m: Timer | m.ref.key != w.ref.key :: p.timers[m] == q.timers[m]
    ensures SameAt(t, p, u, q, l)
  {
    assert !On(w, l) && !On(v, l);
    SwapCounts(p.crew, w, v);
  }

  lemma OwnerLeavesNoPayload(t: Table, p: Pool, u: Table, q: Pool, w: Worker, v: Worker)
    requires w in p.crew && w.Busy? && Owning(w.stage) && Exclusive(t, p, w.ref.key) && OwnerEdits(t, u, w.ref.key)
    requires v.Busy? ==> v.stage != Submitted && v.stage != Leaving(Cancelled)
    requires forall x: Worker | x.Busy? :: q.crew[x] == Swap(p.crew, w, v)[x]
    ensures SubmittedOn(u, q, w.ref.key)
  {
    OwnerIsAlone(t, p, w);
    SwapCounts(p.crew, w, v);
    forall x | x in q.crew && On(x, w.ref.key) && x != v ensures !Live(u.tasks, x.ref) && !Owning(x.stage) {
      assert x in p.crew && x != w;
    }
  }

  lemma OwnerStep(t: Table, p: Pool, u: Table, q: Pool, w: Worker, v: Worker, running: bool, after: bool)
    requires Owned(t, p, running) && (after ==> running) && w in p.crew && w.Busy? && Owning(w.stage)
    requires v.Busy? ==> v.ref == w.ref && (Live(u.tasks, w.ref) ==> Fits(v.stage, u.tasks[w.ref.key].phase))
    requires v.Busy? && Owning(v.stage) ==> Live(u.tasks, w.ref)
    requires OwnerEdits(t, u, w.ref.key) && TasksOk(u) && QueuedRefs(u.tasks, u.ready) && BoundsOk(u, q.crew)
    requires forall x: Worker | x.Busy? :: q.crew[x] == Swap(p.crew, w, v)[x]
    requires q.jobs == p.jobs && q.gappers == p.gappers && TimersOn(u, q.timers, w.ref.key)
    requires forall m: Timer | m.ref.key != w.ref.key :: p.timers[m] == q.timers[m]
    requires v.Busy? && after ==> v.stage != Submitted && v.stage != Leaving(Cancelled)
    requires after && w.ref.key in u.tasks ==> Held(q, Ref(w.ref.key, u.tasks[w.ref.key].ordinal), u.tasks[w.ref.key])
    ensures Owned(u, q, after)
  {
    OwnerExclusive(t, p, u, q, w, v);
    if after { OwnerLeavesNoPayload(t, p, u, q, w, v); }
    forall l | l != w.ref.key ensures SameAt(t, p, u, q, l) {
      OwnerSame(t, p, u, q, w, v, l);
    }
    OneKey(t, p, u, q, w.ref.key, running, after);
  }

  /** What an owner's task looks like, from the invariant. */
  lemma OwnerTask(t: Table, p: Pool, w: Worker, running: bool)
    requires Owned(t, p, running) && w in p.crew && w.Busy? && Owning(w.stage)
    ensures Live(t.tasks, w.ref) && Fits(w.stage, t.tasks[w.ref.key].phase) && TimersOn(t, p.timers, w.ref.key)
  {
    assert Exclusive(t, p, w.ref.key) && On(w, w.ref.key);
  }

  /** The owner moves on to `stage` and leaves the task in `after`. */
  lemma OwnerMoves(t: Table, p: Pool, w: Worker, stage: Stage, after: Task, running: bool)
    requires Owned(t, p, running) && w in p.crew && w.Busy? && Owning(w.stage) && Live(t.tasks, w.ref)
    requires after.ordinal == t.tasks[w.ref.key].ordinal && after.token >= t.tasks[w.ref.key].token
    requires !after.awaiting && Fits(stage, after.phase) && after.phase != Persisting && stage != Submitted
    requires running ==> stage != Leaving(Cancelled)
    ensures Owned(Put(t, w.ref.key, after), p.(crew := Swap(p.crew, w, w.(stage := stage))), running)
  {
    var k, v := w.ref.key, w.(stage := stage);
    var u, q := Put(t, k, after), p.(crew := Swap(p.crew, w, v));
    OwnerTask(t, p, w, running);
    PutKeepsTasks(t, k, after);
    PutKeepsReady(t, k, after);
    SwapCounts(p.crew, w, v);
    OwnTimersOn(t, u, p, k);
    assert Held(q, Ref(k, u.tasks[k].ordinal), after) by { assert v in q.crew && v.Busy? && v.ref == Ref(k, u.tasks[k].ordinal); }
    OwnerStep(t, p, u, q, w, v, running, running);
  }

  lemma DropEdits(t: Table, p: Pool, w: Worker, v: Worker, running: bool)
    requires Owned(t, p, running) && w in p.crew && w.Busy? && Owning(w.stage) && Live(t.tasks, w.ref)
    ensures var k, u, crew := w.ref.key, Drop(t, w.ref.key), Swap(p.crew, w, v);
      OwnerEdits(t, u, k) && TasksOk(u) && QueuedRefs(u.tasks, u.ready) && BoundsOk(u, crew) && TimersOn(u, p.timers, k)
  {
    OwnerTask(t, p, w, running);
    DropKeepsTable(t, w.ref.key);
    SwapCounts(p.crew, w, v);
    OwnTimersOn(t, Drop(t, w.ref.key), p, w.ref.key);
  }

  /** The owner removes its task and ends up idle, or knowing that it is gone. */
  lemma OwnerDrops(t: Table, p: Pool, w: Worker, v: Worker, running: bool)
    requires Owned(t, p, running) && w in p.crew && w.Busy? && Owning(w.stage) && Live(t.tasks, w.ref)
    requires v.Idle? || v == w.(stage := Leaving(Removed))
    ensures Owned(Drop(t, w.ref.key), p.(crew := Swap(p.crew, w, v)), running)
  {
    var k, u, q := w.ref.key, Drop(t, w.ref.key), p.(crew := Swap(p.crew, w, v));
    OwnerTask(t, p, w, running);
    DropEdits(t, p, w, v, running);
    OwnerStep(t, p, u, q, w, v, running, running);
  }

  /** Idle workers come and go, and workers that hold nothing become idle. */
  lemma CrewChanges(t: Table, p: Pool, u: Table, q: Pool, running: bool, after: bool)
    requires Owned(t, p, running) && (after ==> running)
    requires u.tasks == t.tasks && u.ready == t.ready && u.next == t.next && BoundsOk(u, q.crew)
    requires q.jobs == p.jobs && q.timers == p.timers && q.gappers == p.gappers
    requires forall x: Worker | x.Busy? :: q.crew[x] <= p.crew[x]
    requires after ==> forall x: Worker | x in p.crew && x.Busy? && (Owning(x.stage) || x.stage == Submitted) :: q.crew[x] == p.crew[x]
    ensures Owned(u, q, after)
  {
    forall k ensures Exclusive(u, q, k) && (after ==> HeldAt(u, q, k)) {
      assert Exclusive(t, p, k);
      FewerExclusive(t, p, q, k);
      if after { assert HeldAt(t, p, k); FewerHeld(t, p, q, k); }
      assert Exclusive(u, q, k) by { SameTasksExclusive(t, u, q, k); }
    }
  }

  lemma SameTasksExclusive(t: Table, u: Table, q: Pool, k: Key)
    requires u.tasks == t.tasks && t.next <= u.next && Exclusive(t, q, k)
    ensures Exclusive(u, q, k)
  {
  }

  lemma FewerExclusive(t: Table, p: Pool, q: Pool, k: Key)
    requires Exclusive(t, p, k) && q.jobs == p.jobs && q.timers == p.timers && q.gappers == p.gappers
    requires forall x: Worker | x.Busy? :: q.crew[x] <= p.crew[x]
    ensures Exclusive(t, q, k)
  {
    assert forall x | x in q.crew && On(x, k) :: x in p.crew && q.crew[x] == p.crew[x];
  }

  lemma FewerHeld(t: Table, p: Pool, q: Pool, k: Key)
    requires HeldAt(t, p, k) && Exclusive(t, p, k) && q.jobs == p.jobs && q.timers == p.timers && q.gappers == p.gappers
    requires forall x: Worker | x.Busy? :: q.crew[x] <= p.crew[x]
    requires forall x: Worker | x in p.crew && x.Busy? && (Owning(x.stage) || x.stage == Submitted) :: q.crew[x] == p.crew[x]
    ensures HeldAt(t, q, k)
  {
    assert forall x | x in q.crew && On(x, k) :: x in p.crew;
    if k in t.tasks {
      var r := Ref(k, t.tasks[k].ordinal);
      if WorkerHolds(p.crew, r) {
        var w :| w in p.crew && w.Busy? && w.ref == r;
        assert On(w, k);
        if Owning(w.stage) || w.stage == Submitted { assert w in q.crew; }
      }
    }
  }

  /** The owner moves on and leaves its task alone. */
  lemma OwnerStays(t: Table, p: Pool, w: Worker, stage: Stage, running: bool)
    requires Owned(t, p, running) && w in p.crew && w.Busy? && Owning(w.stage)
    requires stage != Submitted && (running ==> stage != Leaving(Cancelled))
    requires Live(t.tasks, w.ref) && t.tasks[w.ref.key].phase != Persisting ==> Fits(stage, t.tasks[w.ref.key].phase)
    ensures Owned(t, p.(crew := Swap(p.crew, w, w.(stage := stage))), running)
  {
    OwnerTask(t, p, w, running);
    assert Put(t, w.ref.key, t.tasks[w.ref.key]).tasks == t.tasks;
    OwnerMoves(t, p, w, stage, t.tasks[w.ref.key], running);
  }

  lemma OwnTimerStarts(t: Table, u: Table, p: Pool, q: Pool, r: Ref)
    requires TimersOn(t, p.timers, r.key) && OwnerEdits(t, u, r.key) && t.tasks[r.key].phase != RetryWait
    requires TasksOk(u) && Live(u.tasks, r) && u.tasks[r.key].phase == RetryWait && u.tasks[r.key].token > t.tasks[r.key].token
    requires q.timers == p.timers + multiset{Timer(r, u.tasks[r.key].token)}
    ensures TimersOn(u, q.timers, r.key)
  {
    var m := Timer(r, u.tasks[r.key].token);
    assert m !in p.timers;
    assert forall x | x in q.timers && x != m :: x in p.timers && q.timers[x] == p.timers[x];
  }

  /** The owner becomes idle and leaves its task in a phase that needs no worker. */
  lemma OwnerLets(t: Table, p: Pool, u: Table, q: Pool, w: Worker, running: bool)
    requires Owned(t, p, running) && w in p.crew && w.Busy? && Owning(w.stage)
    requires OwnerEdits(t, u, w.ref.key) && TasksOk(u) && QueuedRefs(u.tasks, u.ready) && BoundsOk(u, q.crew)
    requires forall x: Worker | x.Busy? :: q.crew[x] == Swap(p.crew, w, Idle(w.burst))[x]
    requires q.jobs == p.jobs && q.gappers == p.gappers && TimersOn(u, q.timers, w.ref.key)
    requires forall m: Timer | m.ref.key != w.ref.key :: p.timers[m] == q.timers[m]
    requires w.ref.key in u.tasks
    requires var task := u.tasks[w.ref.key];
      || (task.phase == RetryWait && task.available && Timer(w.ref, task.token) in q.timers)
      || task.phase == AwaitManifest || task.phase == Queued
    ensures Owned(u, q, running)
  {
    OwnerTask(t, p, w, running);
    OwnerStep(t, p, u, q, w, Idle(w.burst), running, running);
  }

  lemma Idles(crew: multiset<Worker>, w: Worker, grown: bool)
    requires w in crew
    ensures var c := if grown then Swap(crew, w, Idle(w.burst)) + multiset{Idle(true)} else Swap(crew, w, Idle(w.burst));
      && |c| == |crew| + (if grown then 1 else 0)
      && forall x: Worker | x.Busy? :: c[x] == Swap(crew, w, Idle(w.burst))[x]
  {
    SwapCounts(crew, w, Idle(w.burst));
  }

  /** A worker takes a queued task, which nobody holds. */
  lemma TakeExclusive(t: Table, p: Pool, u: Table, q: Pool, b: Worker)
    requires b.Busy? && b.stage == Gate && Exclusive(t, p, b.ref.key) && Live(t.tasks, b.ref) && b.ref.ordinal < t.next
    requires t.tasks[b.ref.key].phase == Queued && u.next == t.next
    requires b.ref.key in u.tasks && u.tasks[b.ref.key] == t.tasks[b.ref.key].(phase := InFlight)
    requires q.jobs == p.jobs && q.timers == p.timers && q.gappers == p.gappers
    requires forall x: Worker | x.Busy? :: q.crew[x] == (p.crew + multiset{b})[x]
    ensures Exclusive(u, q, b.ref.key)
  {
    var k := b.ref.key;
    assert forall x | x in p.crew && On(x, k) :: x.ref != b.ref;
    assert forall x | x in q.crew && On(x, k) :: x == b || (x in p.crew && q.crew[x] == p.crew[x]);
  }

  lemma TakeReady(tasks: map<Key, Task>, ready: seq<Ref>, after: Task)
    requires QueuedRefs(tasks, ready) && |ready| > 0 && after.phase != Queued
    requires ready[0].key in tasks && after.ordinal == ready[0].ordinal
    ensures QueuedRefs(tasks[ready[0].key := after], ready[1..])
  {
    var r, rest, u := ready[0], ready[1..], tasks[ready[0].key := after];
    forall i | 0 <= i < |rest| ensures Live(u, rest[i]) && u[rest[i].key].phase == Queued {
      assert rest[i] == ready[i + 1] && ready[i + 1] != r && Live(tasks, ready[i + 1]);
    }
    forall k | k in u && u[k].phase == Queued ensures Ref(k, u[k].ordinal) in rest {
      var i :| 0 <= i < |ready| && ready[i] == Ref(k, tasks[k].ordinal);
      assert rest[i - 1] == ready[i];
    }
  }

  lemma TakeTable(t: Table)
    requires TasksOk(t) && QueuedRefs(t.tasks, t.ready) && |t.ready| > 0 && t.workers <= MAX_WORKERS
    ensures !HeadIsStale(t) && Live(t.tasks, t.ready[0]) && t.tasks[t.ready[0].key].phase == Queued
    ensures var u := TakeHead(t);
      && TasksOk(u) && QueuedRefs(u.tasks, u.ready) && |u.tasks| == |t.tasks| && u.next == t.next
      && t.workers <= u.workers <= t.workers + 1 && u.workers <= MAX_WORKERS
      && u.tasks == t.tasks[t.ready[0].key := t.tasks[t.ready[0].key].(phase := InFlight)]
  {
    var r := t.ready[0];
    assert Live(t.tasks, r);
    var after := t.tasks[r.key].(phase := InFlight);
    TakeReady(t.tasks, t.ready, after);
    PutKeepsTasks(t, r.key, after);
  }

  lemma TakeSame(t: Table, p: Pool, u: Table, q: Pool, b: Worker, l: Key)
    requires b.Busy? && l != b.ref.key && b.ref.key in t.tasks && u.next == t.next
    requires u.tasks == t.tasks[b.ref.key := t.tasks[b.ref.key].(phase := InFlight)]
    requires q.jobs == p.jobs && q.timers == p.timers && q.gappers == p.gappers
    requires forall x: Worker | x.Busy? :: q.crew[x] == (p.crew + multiset{b})[x]
    ensures SameAt(t, p, u, q, l)
  {
    assert !On(b, l);
  }

  lemma TakeHeld(t: Table, p: Pool, u: Table, q: Pool, b: Worker)
    requires Owned(t, p, true) && |t.ready| > 0 && u == TakeHead(t)
    requires b.Busy? && b.stage == Gate && b.ref == t.ready[0]
    requires q.jobs == p.jobs && q.timers == p.timers && q.gappers == p.gappers
    requires forall x: Worker | x.Busy? :: q.crew[x] == (p.crew + multiset{b})[x]
    ensures HeldAt(u, q, b.ref.key)
  {
    TakeTable(t);
    assert Exclusive(t, p, b.ref.key) && HeldAt(t, p, b.ref.key);
    assert b in q.crew;
  }

  lemma TakeOwned(t: Table, p: Pool, u: Table, q: Pool, b: Worker, running: bool)
    requires Owned(t, p, running) && |t.ready| > 0 && u == TakeHead(t)
    requires b.Busy? && b.stage == Gate && b.ref == t.ready[0]
    requires q.jobs == p.jobs && q.timers == p.timers && q.gappers == p.gappers
    requires forall x: Worker | x.Busy? :: q.crew[x] == (p.crew + multiset{b})[x]
    requires |q.crew| <= u.workers
    ensures Owned(u, q, running)
  {
    TakeTable(t);
    assert Exclusive(t, p, b.ref.key);
    TakeExclusive(t, p, u, q, b);
    if running { TakeHeld(t, p, u, q, b); }
    forall l | l != b.ref.key ensures SameAt(t, p, u, q, l) { TakeSame(t, p, u, q, b, l); }
    OneKey(t, p, u, q, b.ref.key, running, running);
  }

  lemma TakeKeeps(s: State, w: Worker)
    requires Inv(s) && CanTake(s, w)
    ensures Inv(Take(s, w))
  {
    TakeTable(s.table);
    var b := Busy(w.burst, s.table.ready[0], Gate);
    SwapCounts(s.pool.crew, w, b);
    TakeOwned(s.table, s.pool, TakeHead(s.table), Take(s, w).pool, b, !s.canceled);
  }

  lemma ExitKeeps(s: State, w: Worker)
    requires Inv(s) && CanExit(s, w)
    ensures Inv(Exit(s, w))
  {
    var e := Exit(s, w);
    assert |e.pool.crew| == |s.pool.crew| - 1;
    CrewChanges(s.table, s.pool, e.table, e.pool, !s.canceled, !s.canceled);
  }

  lemma EnterKeeps(s: State, w: Worker)
    requires Inv(s) && CanEnter(s, w)
    ensures Inv(Enter(s, w))
  {
    OwnerTask(s.table, s.pool, w, !s.canceled);
    var task := s.table.tasks[w.ref.key];
    if Outdated(task, s.media) {
      OwnerMoves(s.table, s.pool, w, Leaving(AwaitsManifest), Demand(task, s.media).(available := false, observed := false), !s.canceled);
    } else {
      OwnerStays(s.table, s.pool, w, Fetch(s.media, task.cycles), !s.canceled);
    }
  }

  lemma RefusedKeeps(s: State, w: Worker)
    requires Inv(s) && CanFetch(s, w, Refused)
    ensures Inv(FetchEnd(s, w, Refused))
  {
    var t, p, r := s.table, s.pool, !s.canceled;
    OwnerTask(t, p, w, r);
    if w.stage.cycles >= MAX_REFRESH_CYCLES {
      OwnerStays(t, p, w, Leaving(RefreshExhausted), r);
    } else if t.closed {
      OwnerStays(t, p, w, Leaving(AwaitsManifest), r);
    } else {
      OwnerMoves(t, p, w, Refresh(w.stage.gen), t.tasks[w.ref.key].(phase := Refreshing, awaiting := false), r);
    }
  }

  lemma FetchKeeps(s: State, w: Worker, result: Fetched)
    requires Inv(s) && CanFetch(s, w, result)
    ensures Inv(FetchEnd(s, w, result))
  {
    var t, p, r := s.table, s.pool, !s.canceled;
    OwnerTask(t, p, w, r);
    var task := t.tasks[w.ref.key];
    match result
    case Complete => OwnerMoves(t, p, w, Submit, task.(phase := Buffered), r);
    case Stale => OwnerMoves(t, p, w, Leaving(AwaitsManifest), AwaitGeneration(task, s.media), r);
    case Refused => RefusedKeeps(s, w);
    case Broken => OwnerStays(t, p, w, Leaving(FetchFailed), r);
    case Aborted => OwnerStays(t, p, w, Leaving(Cancelled), r);
    case IngestClosed => OwnerDrops(t, p, w, w.(stage := Leaving(Removed)), r);
    case Unclassified => OwnerStays(t, p, w, Leaving(OtherFailure), r);
  }

  lemma RefreshKeeps(s: State, w: Worker, gen: nat)
    requires Inv(s) && CanRefresh(s, w, gen)
    ensures Inv(RefreshEnd(s, w, gen))
  {
    var t, p, r := s.table, s.pool, !s.canceled;
    OwnerTask(t, p, w, r);
    var after := Demand(t.tasks[w.ref.key], gen).(cycles := t.tasks[w.ref.key].cycles + 1);
    OwnerMoves(t, p, w, Leaving(AwaitsManifest), after, r);
    assert RefreshEnd(s, w, gen).table == Put(t, w.ref.key, after);
  }

  lemma RefreshFailKeeps(s: State, w: Worker)
    requires Inv(s) && CanRefreshFail(s, w)
    ensures Inv(RefreshFail(s, w))
  {
    OwnerTask(s.table, s.pool, w, !s.canceled);
    OwnerStays(s.table, s.pool, w, Leaving(RefreshExhausted), !s.canceled);
  }

  // Handing a payload over -------------------------------------------------------------

  /** One worker on `k` moves on; nobody else of the crew does. */
  lemma CrewSwapOn(t: Table, u: Table, crew: multiset<Worker>, w: Worker, v: Worker)
    requires w in crew && w.Busy? && v.Busy? && v.ref == w.ref && CrewOn(t, crew, w.ref.key) && t.next <= u.next
    requires forall r: Ref | r.key == w.ref.key :: Live(t.tasks, r) <==> Live(u.tasks, r)
    requires Live(t.tasks, w.ref) || (w.ref.key in t.tasks ==> w.ref.key in u.tasks && t.tasks[w.ref.key] == u.tasks[w.ref.key])
    requires Live(u.tasks, w.ref) ==> Fits(v.stage, u.tasks[w.ref.key].phase)
    requires Owning(v.stage) ==> Live(u.tasks, w.ref)
    ensures CrewOn(u, Swap(crew, w, v), w.ref.key)
    ensures forall x | x in Swap(crew, w, v) && On(x, w.ref.key) :: x == v || (x in crew && x != w)
  {
    var k := w.ref.key;
    SwapCounts(crew, w, v);
    assert On(w, k) && On(v, k);
    assert v == w || v !in crew;
    forall x | x in Swap(crew, w, v) && On(x, k) ensures x == v || (x in crew && x != w && Swap(crew, w, v)[x] == crew[x]) {
    }
  }

  lemma AcceptExclusive(t: Table, p: Pool, q: Pool, w: Worker)
    requires w in p.crew && w.Busy? && w.stage == Submit && Exclusive(t, p, w.ref.key)
    requires q.crew == Swap(p.crew, w, w.(stage := Submitted)) && q.jobs == p.jobs + multiset{Job(w.ref, false)}
    requires q.timers == p.timers && q.gappers == p.gappers
    ensures Exclusive(t, q, w.ref.key)
  {
    var k := w.ref.key;
    OwnerIsAlone(t, p, w);
    CrewSwapOn(t, t, p.crew, w, w.(stage := Submitted));
    assert forall j | j in q.jobs && j.ref.key == k :: j == Job(w.ref, false);
    assert GappersOn(t, q.crew, q.gappers, k);
  }

  lemma AcceptSame(t: Table, p: Pool, q: Pool, w: Worker, l: Key)
    requires w in p.crew && w.Busy? && l != w.ref.key
    requires q.crew == Swap(p.crew, w, w.(stage := Submitted)) && q.jobs == p.jobs + multiset{Job(w.ref, false)}
    requires q.timers == p.timers && q.gappers == p.gappers
    ensures SameAt(t, p, t, q, l)
  {
    assert !On(w, l) && !On(w.(stage := Submitted), l);
    SwapCounts(p.crew, w, w.(stage := Submitted));
  }

  lemma AcceptIsAlone(t: Table, p: Pool, q: Pool, w: Worker)
    requires w in p.crew && w.Busy? && w.stage == Submit && Exclusive(t, p, w.ref.key)
    requires q.crew == Swap(p.crew, w, w.(stage := Submitted))
    ensures var v := w.(stage := Submitted);
      v in q.crew && On(v, w.ref.key) && forall x | x in q.crew && On(x, w.ref.key) && Live(t.tasks, x.ref) :: x == v
  {
    var v := w.(stage := Submitted);
    OwnerIsAlone(t, p, w);
    SwapCounts(p.crew, w, v);
    forall x | x in q.crew && On(x, w.ref.key) && Live(t.tasks, x.ref) ensures x == v {
      assert x == v || x in p.crew;
    }
  }

  lemma AcceptHeld(t: Table, p: Pool, q: Pool, w: Worker)
    requires w in p.crew && w.Busy? && w.stage == Submit && Exclusive(t, p, w.ref.key)
    requires q.crew == Swap(p.crew, w, w.(stage := Submitted)) && q.jobs == p.jobs + multiset{Job(w.ref, false)}
    ensures HeldAt(t, q, w.ref.key)
  {
    OwnerIsAlone(t, p, w);
    SwapCounts(p.crew, w, w.(stage := Submitted));
    AcceptIsAlone(t, p, q, w);
  }

  lemma AcceptOwned(t: Table, p: Pool, q: Pool, w: Worker, running: bool)
    requires Owned(t, p, running) && w in p.crew && w.Busy? && w.stage == Submit
    requires q.crew == Swap(p.crew, w, w.(stage := Submitted)) && q.jobs == p.jobs + multiset{Job(w.ref, false)}
    requires q.timers == p.timers && q.gappers == p.gappers
    ensures Owned(t, q, running)
  {
    assert Exclusive(t, p, w.ref.key);
    AcceptExclusive(t, p, q, w);
    AcceptHeld(t, p, q, w);
    SwapCounts(p.crew, w, w.(stage := Submitted));
    forall l | l != w.ref.key ensures SameAt(t, p, t, q, l) { AcceptSame(t, p, q, w, l); }
    OneKey(t, p, t, q, w.ref.key, running, running);
  }

  lemma SubmitKeeps(s: State, w: Worker, result: Admitted)
    requires Inv(s) && CanSubmit(s, w)
    ensures Inv(SubmitEnd(s, w, result))
  {
    var t, p, r := s.table, s.pool, !s.canceled;
    match result
    case Accepted => AcceptOwned(t, p, SubmitEnd(s, w, result).pool, w, r);
    case Closed => OwnerDrops(t, p, w, w.(stage := Leaving(Removed)), r);
    case Rejected =>
      OwnerTask(t, p, w, r);
      OwnerStays(t, p, w, Leaving(if s.canceled then Cancelled else StorageFailed), r);
  }

  lemma PersistExclusive(t: Table, p: Pool, u: Table, q: Pool, w: Worker)
    requires w in p.crew && w.Busy? && w.stage == Submitted && Exclusive(t, p, w.ref.key)
    requires u == if Live(t.tasks, w.ref) then Put(t, w.ref.key, t.tasks[w.ref.key].(phase := Persisting)) else t
    requires q == p.(crew := Swap(p.crew, w, w.(stage := Leaving(PersistQueued))))
    ensures Exclusive(u, q, w.ref.key)
  {
    var k := w.ref.key;
    assert On(w, k);
    CrewSwapOn(t, u, p.crew, w, w.(stage := Leaving(PersistQueued)));
  }

  lemma PersistHeld(t: Table, p: Pool, u: Table, q: Pool, w: Worker)
    requires w in p.crew && w.Busy? && w.stage == Submitted && Exclusive(t, p, w.ref.key) && HeldAt(t, p, w.ref.key)
    requires u == if Live(t.tasks, w.ref) then Put(t, w.ref.key, t.tasks[w.ref.key].(phase := Persisting)) else t
    requires q == p.(crew := Swap(p.crew, w, w.(stage := Leaving(PersistQueued))))
    ensures HeldAt(u, q, w.ref.key)
  {
    var k, v := w.ref.key, w.(stage := Leaving(PersistQueued));
    SwapCounts(p.crew, w, v);
    assert On(w, k);
    if k in t.tasks && !Live(t.tasks, w.ref) {
      var r := Ref(k, t.tasks[k].ordinal);
      if WorkerHolds(p.crew, r) {
        var x :| x in p.crew && x.Busy? && x.ref == r;
        assert x in q.crew;
      }
    }
  }

  lemma PersistSame(t: Table, p: Pool, u: Table, q: Pool, w: Worker, l: Key)
    requires w in p.crew && w.Busy? && l != w.ref.key
    requires u == if Live(t.tasks, w.ref) then Put(t, w.ref.key, t.tasks[w.ref.key].(phase := Persisting)) else t
    requires q == p.(crew := Swap(p.crew, w, w.(stage := Leaving(PersistQueued))))
    ensures SameAt(t, p, u, q, l)
  {
    assert !On(w, l) && !On(w.(stage := Leaving(PersistQueued)), l);
    SwapCounts(p.crew, w, w.(stage := Leaving(PersistQueued)));
  }

  lemma PersistTable(t: Table, u: Table, w: Worker)
    requires TasksOk(t) && QueuedRefs(t.tasks, t.ready) && w.Busy? && (Live(t.tasks, w.ref) ==> t.tasks[w.ref.key].phase == Buffered)
    requires u == if Live(t.tasks, w.ref) then Put(t, w.ref.key, t.tasks[w.ref.key].(phase := Persisting)) else t
    ensures TasksOk(u) && QueuedRefs(u.tasks, u.ready)
  {
    if Live(t.tasks, w.ref) {
      PutKeepsTasks(t, w.ref.key, t.tasks[w.ref.key].(phase := Persisting));
      PutKeepsReady(t, w.ref.key, t.tasks[w.ref.key].(phase := Persisting));
    }
  }

  lemma PersistOwned(t: Table, p: Pool, u: Table, q: Pool, w: Worker, running: bool)
    requires Owned(t, p, running) && w in p.crew && w.Busy? && w.stage == Submitted
    requires u == if Live(t.tasks, w.ref) then Put(t, w.ref.key, t.tasks[w.ref.key].(phase := Persisting)) else t
    requires q == p.(crew := Swap(p.crew, w, w.(stage := Leaving(PersistQueued))))
    ensures Owned(u, q, running)
  {
    var k := w.ref.key;
    assert Exclusive(t, p, k) && On(w, k);
    PersistExclusive(t, p, u, q, w);
    if running {
      assert HeldAt(t, p, k);
      PersistHeld(t, p, u, q, w);
    }
    SwapCounts(p.crew, w, w.(stage := Leaving(PersistQueued)));
    PersistTable(t, u, w);
    forall l | l != k ensures SameAt(t, p, u, q, l) { PersistSame(t, p, u, q, w, l); }
    OneKey(t, p, u, q, k, running, running);
  }

  lemma PersistingKeeps(s: State, w: Worker)
    requires Inv(s) && At(s, w, Submitted)
    ensures Inv(MarkPersisting(s, w))
  {
    PersistOwned(s.table, s.pool, MarkPersisting(s, w).table, MarkPersisting(s, w).pool, w, !s.canceled);
  }

  // Leaving `acquire` --------------------------------------------------------------------

  /** A worker that owns nothing, or one of a canceled run, becomes idle. */
  lemma FreeKeeps(t: Table, p: Pool, u: Table, w: Worker, running: bool, after: bool)
    requires Owned(t, p, running) && (after ==> running) && w in p.crew && w.Busy?
    requires u.tasks == t.tasks && u.ready == t.ready && u.next == t.next && u.workers == t.workers
    requires after ==> !Owning(w.stage) && w.stage != Submitted
    ensures Owned(u, p.(crew := Swap(p.crew, w, Idle(w.burst))), after)
  {
    var q := p.(crew := Swap(p.crew, w, Idle(w.burst)));
    SwapCounts(p.crew, w, Idle(w.burst));
    CrewChanges(t, p, u, q, running, after);
  }

  lemma RetireKeeps(t: Table, p: Pool, u: Table, w: Worker, running: bool)
    requires Owned(t, p, running) && w in p.crew
    requires u.tasks == t.tasks && u.ready == t.ready && u.next == t.next && u.workers == t.workers
    ensures Owned(u, p.(crew := p.crew - multiset{w}), false)
  {
    assert |p.crew - multiset{w}| == |p.crew| - 1;
    CrewChanges(t, p, u, p.(crew := p.crew - multiset{w}), running, false);
  }

  lemma BusyKeeps(t: Table, p: Pool, busy: int, running: bool)
    requires Owned(t, p, running)
    ensures Owned(t.(busy := busy), p, running)
  {
    CrewChanges(t, p, t.(busy := busy), p, running, running);
  }

  lemma RetryKeeps(t: Table, p: Pool, w: Worker, after: Task)
    requires Owned(t, p, true) && w in p.crew && w.Busy? && w.stage == Leaving(FetchFailed) && Live(t.tasks, w.ref)
    requires after.ordinal == t.tasks[w.ref.key].ordinal && after.token > t.tasks[w.ref.key].token
    requires after.phase == RetryWait && after.available && !after.awaiting
    ensures Owned(Put(t, w.ref.key, after),
              p.(crew := Swap(p.crew, w, Idle(w.burst)), timers := p.timers + multiset{Timer(w.ref, after.token)}), true)
  {
    var k, u := w.ref.key, Put(t, w.ref.key, after);
    var q := p.(crew := Swap(p.crew, w, Idle(w.burst)), timers := p.timers + multiset{Timer(w.ref, after.token)});
    OwnerTask(t, p, w, true);
    PutKeepsTasks(t, k, after);
    PutKeepsReady(t, k, after);
    Idles(p.crew, w, false);
    OwnTimerStarts(t, u, p, q, w.ref);
    OwnerLets(t, p, u, q, w, true);
  }

  lemma LeaveFailedKeeps(t: State, w: Worker, saved: bool)
    requires Owned(t.table, t.pool, true) && !t.canceled && !t.table.closed
    requires w in t.pool.crew && w.Busy? && w.stage == Leaving(FetchFailed) && Live(t.table.tasks, w.ref)
    ensures Inv(LeaveFailed(t, w, saved))
  {
    var tb, p, k := t.table, t.pool, w.ref.key;
    var after := AfterFailure(tb.tasks[k], t.clock.ending);
    OwnerTask(tb, p, w, true);
    if tb.tasks[k].available && !saved {
      RetireKeeps(tb, p, Halt(t).table, w, true);
    } else if after.phase == GapCommitting {
      OwnerMoves(tb, p, w, Stage.Gap(false), after, true);
    } else {
      RetryKeeps(tb, p, w, after);
    }
  }

  /** The task is gone, or its job is queued. */
  lemma LeaveGoneKeeps(s: State, w: Worker, saved: bool)
    requires Inv(s) && CanLeave(s, w) && (!Live(s.table.tasks, w.ref) || w.stage.outcome == PersistQueued)
    ensures Inv(Leave(s, w, saved))
  {
    var t, b := s.table, s.(table := s.table.(busy := s.table.busy - 1));
    assert Exclusive(t, s.pool, w.ref.key) && On(w, w.ref.key);
    FreeKeeps(t, s.pool, b.table, w, !s.canceled, !s.canceled);
    assert Leave(s, w, saved) == Free(b, w);
  }

  /** The storage failed, or the run is canceled. */
  lemma LeaveStoppedKeeps(s: State, w: Worker, saved: bool)
    requires Inv(s) && CanLeave(s, w) && Live(s.table.tasks, w.ref)
    requires w.stage.outcome == StorageFailed || (s.canceled && w.stage.outcome != Removed && w.stage.outcome != PersistQueued)
    ensures Inv(Leave(s, w, saved))
  {
    var t, b := s.table, s.(table := s.table.(busy := s.table.busy - 1));
    FreeKeeps(t, s.pool, b.table, w, !s.canceled, false);
    FreeKeeps(t, s.pool, Halt(b).table, w, !s.canceled, false);
    assert Leave(s, w, saved) == if w.stage.outcome == StorageFailed then Halt(Free(b, w)) else Free(b, w);
  }

  /** The outcomes after which the worker has nothing more to do with the task. */
  lemma LeaveIdleKeeps(s: State, w: Worker, saved: bool)
    requires Inv(s) && CanLeave(s, w)
    requires !Live(s.table.tasks, w.ref) || s.canceled || w.stage.outcome in {PersistQueued, StorageFailed, Cancelled}
    ensures Inv(Leave(s, w, saved))
  {
    assert Exclusive(s.table, s.pool, w.ref.key) && On(w, w.ref.key);
    assert !s.canceled ==> HeldAt(s.table, s.pool, w.ref.key);
    if !Live(s.table.tasks, w.ref) || w.stage.outcome == PersistQueued {
      LeaveGoneKeeps(s, w, saved);
    } else {
      LeaveStoppedKeeps(s, w, saved);
    }
  }

  lemma LeaveAwaitKeeps(s: State, w: Worker, saved: bool)
    requires Inv(s) && CanLeave(s, w) && Live(s.table.tasks, w.ref) && !s.canceled && w.stage.outcome == AwaitsManifest
    ensures Inv(Leave(s, w, saved))
  {
    var t, b := s.table, s.(table := s.table.(busy := s.table.busy - 1));
    BusyKeeps(t, s.pool, t.busy - 1, true);
    OwnerTask(t, s.pool, w, true);
    OwnerStays(b.table, s.pool, w, Awaiting, true);
    assert Leave(s, w, saved) == To(b, w, Awaiting);
  }

  lemma LeaveIsFailed(s: State, w: Worker, saved: bool)
    requires CanLeave(s, w) && Live(s.table.tasks, w.ref) && !s.canceled && w.stage.outcome == FetchFailed
    ensures Leave(s, w, saved) == LeaveFailed(s.(table := s.table.(busy := s.table.busy - 1)), w, saved)
  {
  }

  lemma LeaveFetchKeeps(s: State, w: Worker, saved: bool)
    requires Inv(s) && CanLeave(s, w) && Live(s.table.tasks, w.ref) && !s.canceled && w.stage.outcome == FetchFailed
    ensures Inv(Leave(s, w, saved))
  {
    var b := s.(table := s.table.(busy := s.table.busy - 1));
    BusyKeeps(s.table, s.pool, s.table.busy - 1, true);
    LeaveFailedKeeps(b, w, saved);
    LeaveIsFailed(s, w, saved);
  }

  lemma LeaveOnKeeps(s: State, w: Worker, saved: bool)
    requires Inv(s) && CanLeave(s, w) && Live(s.table.tasks, w.ref) && !s.canceled
    requires w.stage.outcome == AwaitsManifest || w.stage.outcome == FetchFailed
    ensures Inv(Leave(s, w, saved))
  {
    if w.stage.outcome == AwaitsManifest {
      LeaveAwaitKeeps(s, w, saved);
    } else {
      LeaveFetchKeeps(s, w, saved);
    }
  }

  lemma LeaveHaltKeeps(s: State, w: Worker, saved: bool)
    requires Inv(s) && CanLeave(s, w) && Live(s.table.tasks, w.ref) && !s.canceled
    requires w.stage.outcome == RefreshExhausted || w.stage.outcome == OtherFailure
    ensures Inv(Leave(s, w, saved))
  {
    var b := s.(table := s.table.(busy := s.table.busy - 1));
    RetireKeeps(s.table, s.pool, Halt(b).table, w, true);
    assert Leave(s, w, saved) == Halt(Retire(b, w));
  }

  lemma LeaveKeeps(s: State, w: Worker, saved: bool)
    requires Inv(s) && CanLeave(s, w)
    ensures Inv(Leave(s, w, saved))
  {
    var o := w.stage.outcome;
    if !Live(s.table.tasks, w.ref) || s.canceled || o in {PersistQueued, StorageFailed, Cancelled} {
      LeaveIdleKeeps(s, w, saved);
    } else if o == RefreshExhausted || o == OtherFailure {
      LeaveHaltKeeps(s, w, saved);
    } else {
      assert Exclusive(s.table, s.pool, w.ref.key) && On(w, w.ref.key);
      LeaveOnKeeps(s, w, saved);
    }
  }

  lemma RequeueKeeps(t: Table, p: Pool, w: Worker, running: bool)
    requires Owned(t, p, running) && w in p.crew && w.Busy? && Owning(w.stage) && Live(t.tasks, w.ref)
    ensures var u := Enqueue(t, w.ref.key, t.tasks[w.ref.key]);
      Owned(u, p.(crew := if u.workers > t.workers then Swap(p.crew, w, Idle(w.burst)) + multiset{Idle(true)} else Swap(p.crew, w, Idle(w.burst))), running)
  {
    var k := w.ref.key;
    var u := Enqueue(t, k, t.tasks[k]);
    var q := p.(crew := if u.workers > t.workers then Swap(p.crew, w, Idle(w.burst)) + multiset{Idle(true)} else Swap(p.crew, w, Idle(w.burst)));
    OwnerTask(t, p, w, running);
    EnqueueKeepsTasks(t, k, t.tasks[k]);
    EnqueueKeepsReady(t, k, t.tasks[k]);
    Idles(p.crew, w, u.workers > t.workers);
    OwnTimersOn(t, u, p, k);
    OwnerLets(t, p, u, q, w, running);
  }

  lemma PlaylistWaitKeeps(t: Table, p: Pool, w: Worker, running: bool)
    requires Owned(t, p, running) && w in p.crew && w.Busy? && Owning(w.stage) && Live(t.tasks, w.ref)
    ensures Owned(Put(t, w.ref.key, t.tasks[w.ref.key].(phase := AwaitManifest, awaiting := true)),
              p.(crew := Swap(p.crew, w, Idle(w.burst))), running)
  {
    var k := w.ref.key;
    var after := t.tasks[k].(phase := AwaitManifest, awaiting := true);
    OwnerTask(t, p, w, running);
    PutKeepsTasks(t, k, after);
    PutKeepsReady(t, k, after);
    Idles(p.crew, w, false);
    OwnTimersOn(t, Put(t, k, after), p, k);
    OwnerLets(t, p, Put(t, k, after), p.(crew := Swap(p.crew, w, Idle(w.burst))), w, running);
  }

  lemma AwaitKeeps(s: State, w: Worker)
    requires Inv(s) && At(s, w, Awaiting)
    ensures Inv(Await(s, w))
  {
    var t, p, r := s.table, s.pool, !s.canceled;
    OwnerTask(t, p, w, r);
    var task := t.tasks[w.ref.key];
    if Refreshed(task) {
      RequeueKeeps(t, p, w, r);
      AwaitRequeues(s, w);
    } else {
      AwaitOnKeeps(s, w);
    }
  }

  /** What awaitManifest does to a task whose playlist has come. */
  lemma AwaitRequeues(s: State, w: Worker)
    requires At(s, w, Awaiting) && Live(s.table.tasks, w.ref) && Refreshed(s.table.tasks[w.ref.key])
    requires s.table.tasks[w.ref.key].phase != GapCommitting
    ensures var a, u, crew := Await(s, w), Enqueue(s.table, w.ref.key, s.table.tasks[w.ref.key]), Swap(s.pool.crew, w, Idle(w.burst));
      && a.canceled == s.canceled && a.table == u
      && a.pool == s.pool.(crew := if u.workers > s.table.workers then crew + multiset{Idle(true)} else crew)
  {
    SpawnAfterSwap(s.pool.crew, w);
  }

  /** What awaitManifest does to a task whose playlist has not come yet. */
  lemma AwaitOnIs(s: State, w: Worker)
    requires At(s, w, Awaiting) && Live(s.table.tasks, w.ref) && !Refreshed(s.table.tasks[w.ref.key])
    ensures var a, k, task := Await(s, w), w.ref.key, s.table.tasks[w.ref.key];
      && a.canceled == s.canceled && a.table.closed == s.table.closed
      && ((a.table == Put(s.table, k, task.(phase := GapCommitting)) && a.pool == s.pool.(crew := Swap(s.pool.crew, w, w.(stage := Stage.Gap(false)))))
         || (a.table == Put(s.table, k, task.(phase := AwaitManifest, awaiting := true)) && a.pool == s.pool.(crew := Swap(s.pool.crew, w, Idle(w.burst)))))
  {
  }

  lemma AwaitOnKeeps(s: State, w: Worker)
    requires Inv(s) && At(s, w, Awaiting) && Live(s.table.tasks, w.ref) && !Refreshed(s.table.tasks[w.ref.key])
    ensures Inv(Await(s, w))
  {
    OwnerTask(s.table, s.pool, w, !s.canceled);
    AwaitOnIs(s, w);
    PlaylistWaitKeeps(s.table, s.pool, w, !s.canceled);
    OwnerMoves(s.table, s.pool, w, Stage.Gap(false), s.table.tasks[w.ref.key].(phase := GapCommitting), !s.canceled);
  }

  /** Starting a burst worker and freeing this one commute. */
  lemma SpawnAfterSwap(crew: multiset<Worker>, w: Worker)
    requires w in crew
    ensures Swap(crew + multiset{Idle(true)}, w, Idle(w.burst)) == Swap(crew, w, Idle(w.burst)) + multiset{Idle(true)}
  {
  }

  lemma GapMarkKeeps(s: State, w: Worker, saved: bool)
    requires Inv(s) && At(s, w, Stage.Gap(false))
    ensures Inv(GapMark(s, w, saved))
  {
    if saved {
      OwnerTask(s.table, s.pool, w, !s.canceled);
      OwnerStays(s.table, s.pool, w, Stage.Gap(true), !s.canceled);
    } else {
      FreeKeeps(s.table, s.pool, Halt(s).table, w, !s.canceled, false);
    }
  }

  lemma GapDoneKeeps(s: State, w: Worker)
    requires Inv(s) && At(s, w, Stage.Gap(true))
    ensures Inv(GapDone(s, w))
  {
    OwnerTask(s.table, s.pool, w, !s.canceled);
    OwnerDrops(s.table, s.pool, w, Idle(w.burst), !s.canceled);
  }

  // Jobs, timers and gap commits ------------------------------------------------------------

  /** Only the jobs of `k` differ. */
  lemma JobsSame(t: Table, p: Pool, jobs: multiset<Job>, k: Key, l: Key)
    requires l != k && forall j: Job | j.ref.key != k :: p.jobs[j] == jobs[j]
    ensures SameAt(t, p, t, p.(jobs := jobs), l)
  {
  }

  lemma JobCommitOn(t: Table, p: Pool, q: Pool, j: Job, running: bool)
    requires j in p.jobs && !j.committed && Exclusive(t, p, j.ref.key) && (running ==> HeldAt(t, p, j.ref.key))
    requires q == p.(jobs := p.jobs - multiset{j} + multiset{Job(j.ref, true)})
    ensures Exclusive(t, q, j.ref.key) && (running ==> HeldAt(t, q, j.ref.key))
  {
    var k := j.ref.key;
    assert Job(j.ref, true) !in p.jobs;
    assert forall i | i in q.jobs && i.ref.key == k :: i == Job(j.ref, true) || (i in p.jobs && i != j && q.jobs[i] == p.jobs[i]);
  }

  lemma JobCommitKeeps(s: State, j: Job)
    requires Inv(s) && CanCommit(s, j)
    ensures Inv(JobCommit(s, j))
  {
    var t, p, k := s.table, s.pool, j.ref.key;
    var q := p.(jobs := p.jobs - multiset{j} + multiset{Job(j.ref, true)});
    assert Exclusive(t, p, k) && (!s.canceled ==> HeldAt(t, p, k));
    JobCommitOn(t, p, q, j, !s.canceled);
    forall l | l != k ensures SameAt(t, p, t, q, l) { JobsSame(t, p, q.jobs, k, l); }
    OneKey(t, p, t, q, k, !s.canceled, !s.canceled);
  }

  lemma FewerJobsExclusive(t: Table, p: Pool, jobs: multiset<Job>, k: Key)
    requires Exclusive(t, p, k) && jobs <= p.jobs
    ensures Exclusive(t, p.(jobs := jobs), k)
  {
    assert forall i: Job | i in jobs :: i in p.jobs && jobs[i] <= p.jobs[i];
  }

  lemma JobFailExclusive(s: State, j: Job)
    requires Inv(s) && CanCommit(s, j)
    ensures Exclusive(JobFail(s, j).table, JobFail(s, j).pool, j.ref.key)
  {
    var p := JobFail(s, j).pool;
    assert Exclusive(s.table, s.pool, j.ref.key);
    FewerJobsExclusive(s.table, s.pool, p.jobs, j.ref.key);
    SameTasksExclusive(s.table, JobFail(s, j).table, p, j.ref.key);
  }

  lemma JobFailKeeps(s: State, j: Job)
    requires Inv(s) && CanCommit(s, j)
    ensures Inv(JobFail(s, j))
  {
    var t, u, p, k := s.table, JobFail(s, j).table, s.pool, j.ref.key;
    var q := JobFail(s, j).pool;
    JobFailExclusive(s, j);
    forall l | l != k ensures SameAt(t, p, u, q, l) { JobsSame(t, p, q.jobs, k, l); }
    OneKey(t, p, u, q, k, !s.canceled, false);
  }

  lemma JobDoneOn(t: Table, p: Pool, j: Job)
    requires j in p.jobs && Exclusive(t, p, j.ref.key)
    ensures Live(t.tasks, j.ref) && t.tasks[j.ref.key].phase != Queued
    ensures Exclusive(Drop(t, j.ref.key), p.(jobs := p.jobs - multiset{j}), j.ref.key)
    ensures HeldAt(t, p, j.ref.key) ==> HeldAt(Drop(t, j.ref.key), p.(jobs := p.jobs - multiset{j}), j.ref.key)
  {
    var k, jobs := j.ref.key, p.jobs - multiset{j};
    assert forall i | i in jobs && i.ref.key == k :: i in p.jobs && i != j;
    assert forall i | i in p.jobs && i.ref.key == k :: i.ref == j.ref;
  }

  /** Dropping the task of `k` and the holder that finished it. */
  lemma DropSame(t: Table, p: Pool, q: Pool, k: Key, l: Key)
    requires l != k && q.crew == p.crew && q.timers == p.timers
    requires forall j: Job | j.ref.key != k :: p.jobs[j] == q.jobs[j]
    requires forall g: Gapper | g.ref.key != k :: p.gappers[g] == q.gappers[g]
    ensures SameAt(t, p, Drop(t, k), q, l)
  {
  }

  lemma DropOwned(t: Table, p: Pool, q: Pool, k: Key, running: bool)
    requires Owned(t, p, running) && k in t.tasks && t.tasks[k].phase != Queued && q.crew == p.crew && q.timers == p.timers
    requires forall j: Job | j.ref.key != k :: p.jobs[j] == q.jobs[j]
    requires forall g: Gapper | g.ref.key != k :: p.gappers[g] == q.gappers[g]
    requires Exclusive(Drop(t, k), q, k) && (running ==> HeldAt(Drop(t, k), q, k))
    ensures Owned(Drop(t, k), q, running)
  {
    DropKeepsTable(t, k);
    forall l | l != k ensures SameAt(t, p, Drop(t, k), q, l) { DropSame(t, p, q, k, l); }
    OneKey(t, p, Drop(t, k), q, k, running, running);
  }

  lemma JobDoneKeeps(s: State, j: Job)
    requires Inv(s) && CanFinish(s, j)
    ensures Inv(JobDone(s, j))
  {
    var t, p, k := s.table, s.pool, j.ref.key;
    assert Exclusive(t, p, k);
    assert !s.canceled ==> HeldAt(t, p, k);
    JobDoneOn(t, p, j);
    DropOwned(t, p, p.(jobs := p.jobs - multiset{j}), k, !s.canceled);
  }

  /** A task that waits for its timer has no other holder. */
  lemma WaitingIsAlone(t: Table, p: Pool, k: Key)
    requires Exclusive(t, p, k) && k in t.tasks && t.tasks[k].phase == RetryWait
    ensures forall w | w in p.crew && On(w, k) :: !Live(t.tasks, w.ref) && !Owning(w.stage)
    ensures forall j | j in p.jobs :: j.ref.key != k
    ensures forall g | g in p.gappers :: g.ref.key != k
  {
  }

  lemma TimerFiresOn(t: Table, p: Pool, m: Timer)
    requires m in p.timers && Exclusive(t, p, m.ref.key) && Live(t.tasks, m.ref) && t.tasks[m.ref.key].token == m.token
    requires TasksOk(t)
    ensures var u := Enqueue(t, m.ref.key, t.tasks[m.ref.key]);
      Exclusive(u, p.(timers := p.timers - multiset{m}), m.ref.key) && HeldAt(u, p.(timers := p.timers - multiset{m}), m.ref.key)
  {
    var k := m.ref.key;
    WaitingIsAlone(t, p, k);
    var u, q := Enqueue(t, k, t.tasks[k]), p.(timers := p.timers - multiset{m});
    assert forall x | x in q.timers :: x in p.timers && (x == m ==> p.timers[m] > 1);
    assert forall r: Ref :: Live(t.tasks, r) <==> Live(u.tasks, r);
  }

  lemma TimerGoneOn(t: Table, p: Pool, m: Timer, running: bool)
    requires m in p.timers && Exclusive(t, p, m.ref.key) && (running ==> HeldAt(t, p, m.ref.key))
    requires running ==> !Live(t.tasks, m.ref) || t.tasks[m.ref.key].token != m.token || !t.tasks[m.ref.key].available
    ensures var q := p.(timers := p.timers - multiset{m});
      Exclusive(t, q, m.ref.key) && (running ==> HeldAt(t, q, m.ref.key))
  {
    var q := p.(timers := p.timers - multiset{m});
    assert forall x | x in q.timers :: x in p.timers && q.timers[x] <= p.timers[x];
    assert forall x | x != m :: q.timers[x] == p.timers[x];
  }

  lemma TimerSame(t: Table, p: Pool, u: Table, q: Pool, m: Timer, l: Key)
    requires l != m.ref.key && t.next == u.next
    requires (l in t.tasks <==> l in u.tasks) && (l in t.tasks ==> t.tasks[l] == u.tasks[l])
    requires q.timers == p.timers - multiset{m} && q.jobs == p.jobs && q.gappers == p.gappers
    requires forall x: Worker | x.Busy? :: q.crew[x] == p.crew[x]
    ensures SameAt(t, p, u, q, l)
  {
  }

  lemma TimerGoneKeeps(t: Table, p: Pool, m: Timer, running: bool)
    requires Owned(t, p, running) && m in p.timers
    requires running ==> !Live(t.tasks, m.ref) || t.tasks[m.ref.key].token != m.token || !t.tasks[m.ref.key].available
    ensures Owned(t, p.(timers := p.timers - multiset{m}), running)
  {
    var q := p.(timers := p.timers - multiset{m});
    assert Exclusive(t, p, m.ref.key) && (running ==> HeldAt(t, p, m.ref.key));
    TimerGoneOn(t, p, m, running);
    forall l | l != m.ref.key ensures SameAt(t, p, t, q, l) { TimerSame(t, p, t, q, m, l); }
    OneKey(t, p, t, q, m.ref.key, running, running);
  }

  lemma TimerFiresPool(t: Table, p: Pool, u: Table, q: Pool, m: Timer)
    requires m in p.timers && Exclusive(t, p, m.ref.key) && Live(t.tasks, m.ref) && t.tasks[m.ref.key].token == m.token
    requires TasksOk(t) && u == Enqueue(t, m.ref.key, t.tasks[m.ref.key])
    requires q.timers == p.timers - multiset{m} && q.jobs == p.jobs && q.gappers == p.gappers
    requires forall x: Worker | x.Busy? :: q.crew[x] == p.crew[x]
    ensures Exclusive(u, q, m.ref.key) && HeldAt(u, q, m.ref.key) && t.tasks[m.ref.key].phase == RetryWait
  {
    TimerFiresOn(t, p, m);
    SpawnExclusive(u, p.(timers := p.timers - multiset{m}), q, m.ref.key);
  }

  lemma TimerFiresKeeps(t: Table, p: Pool, m: Timer, running: bool)
    requires Owned(t, p, running) && m in p.timers && Live(t.tasks, m.ref) && t.tasks[m.ref.key].token == m.token
    ensures var u := Enqueue(t, m.ref.key, t.tasks[m.ref.key]);
      var crew := if u.workers > t.workers then p.crew + multiset{Idle(true)} else p.crew;
      Owned(u, p.(crew := crew, timers := p.timers - multiset{m}), running)
  {
    var k, u := m.ref.key, Enqueue(t, m.ref.key, t.tasks[m.ref.key]);
    var q := p.(crew := if u.workers > t.workers then p.crew + multiset{Idle(true)} else p.crew, timers := p.timers - multiset{m});
    assert Exclusive(t, p, k);
    TimerFiresPool(t, p, u, q, m);
    EnqueueKeepsTasks(t, k, t.tasks[k]);
    EnqueueKeepsReady(t, k, t.tasks[k]);
    forall l | l != k ensures SameAt(t, p, u, q, l) { TimerSame(t, p, u, q, m, l); }
    OneKey(t, p, u, q, k, running, running);
  }

  lemma TimerKeeps(s: State, m: Timer)
    requires Inv(s) && m in s.pool.timers
    ensures Inv(TimerEnd(s, m))
  {
    var t, r := s.table, !s.canceled;
    if t.closed || s.canceled || !Live(t.tasks, m.ref) || t.tasks[m.ref.key].token != m.token || !t.tasks[m.ref.key].available {
      TimerGoneKeeps(t, s.pool, m, r);
    } else {
      TimerFiresKeeps(t, s.pool, m, r);
    }
  }

  /** A new idle worker changes nothing about any task. */
  lemma SpawnExclusive(t: Table, p: Pool, q: Pool, k: Key)
    requires Exclusive(t, p, k) && HeldAt(t, p, k)
    requires q.jobs == p.jobs && q.timers == p.timers && q.gappers == p.gappers && forall x: Worker | x.Busy? :: q.crew[x] == p.crew[x]
    ensures Exclusive(t, q, k) && HeldAt(t, q, k)
  {
    FrameExclusive(t, p, t, q, k);
    FrameHeld(t, p, t, q, k);
  }

  lemma GappersSame(t: Table, p: Pool, gappers: multiset<Gapper>, k: Key, l: Key)
    requires l != k && forall g: Gapper | g.ref.key != k :: p.gappers[g] == gappers[g]
    ensures SameAt(t, p, t, p.(gappers := gappers), l)
  {
  }

  lemma GapperMarkOn(t: Table, p: Pool, q: Pool, g: Gapper, running: bool)
    requires g in p.gappers && !g.marked && Exclusive(t, p, g.ref.key) && (running ==> HeldAt(t, p, g.ref.key))
    requires q == p.(gappers := p.gappers - multiset{g} + multiset{Gapper(g.ref, true)})
    ensures Exclusive(t, q, g.ref.key) && (running ==> HeldAt(t, q, g.ref.key))
  {
    var k := g.ref.key;
    assert Gapper(g.ref, true) !in p.gappers;
    assert forall h | h in q.gappers && h.ref.key == k :: h == Gapper(g.ref, true) || (h in p.gappers && h != g && q.gappers[h] == p.gappers[h]);
  }

  lemma GapperMarkOwned(t: Table, p: Pool, g: Gapper, running: bool)
    requires Owned(t, p, running) && g in p.gappers && !g.marked
    ensures Owned(t, p.(gappers := p.gappers - multiset{g} + multiset{Gapper(g.ref, true)}), running)
  {
    var k, q := g.ref.key, p.(gappers := p.gappers - multiset{g} + multiset{Gapper(g.ref, true)});
    assert Exclusive(t, p, k) && (running ==> HeldAt(t, p, k));
    GapperMarkOn(t, p, q, g, running);
    forall l | l != k ensures SameAt(t, p, t, q, l) { GappersSame(t, p, q.gappers, k, l); }
    OneKey(t, p, t, q, k, running, running);
  }

  /** After a failed gap commit the poller gives up the others as well. */
  lemma GappersGone(t: Table, p: Pool, u: Table, running: bool)
    requires Owned(t, p, running) && u.tasks == t.tasks && u.ready == t.ready && u.next == t.next && u.workers == t.workers
    ensures Owned(u, p.(gappers := multiset{}), false)
  {
    var q := p.(gappers := multiset{});
    forall l ensures Exclusive(u, q, l) {
      assert Exclusive(t, p, l);
      SameTasksExclusive(t, u, p, l);
    }
  }

  lemma GapperMarkKeeps(s: State, g: Gapper, saved: bool)
    requires Inv(s) && g in s.pool.gappers && !g.marked
    ensures Inv(GapperMark(s, g, saved))
  {
    if saved {
      GapperMarkOwned(s.table, s.pool, g, !s.canceled);
    } else {
      GappersGone(s.table, s.pool, GapperMark(s, g, saved).table, !s.canceled);
    }
  }

  lemma GapperDoneOn(t: Table, p: Pool, g: Gapper)
    requires g in p.gappers && Exclusive(t, p, g.ref.key)
    ensures Live(t.tasks, g.ref) && t.tasks[g.ref.key].phase != Queued
    ensures Exclusive(Drop(t, g.ref.key), p.(gappers := p.gappers - multiset{g}), g.ref.key)
    ensures HeldAt(t, p, g.ref.key) ==> HeldAt(Drop(t, g.ref.key), p.(gappers := p.gappers - multiset{g}), g.ref.key)
  {
    var k, gappers := g.ref.key, p.gappers - multiset{g};
    assert forall h | h in gappers && h.ref.key == k :: h in p.gappers && h != g;
    assert forall h | h in p.gappers && h.ref.key == k :: h.ref == g.ref;
    assert forall w | w in p.crew && On(w, k) && Live(t.tasks, w.ref) :: w.ref == g.ref;
  }

  lemma GapperDoneKeeps(s: State, g: Gapper)
    requires Inv(s) && g in s.pool.gappers && g.marked
    ensures Inv(GapperDone(s, g))
  {
    var t, p, k := s.table, s.pool, g.ref.key;
    assert Exclusive(t, p, k);
    assert !s.canceled ==> HeldAt(t, p, k);
    GapperDoneOn(t, p, g);
    DropOwned(t, p, p.(gappers := p.gappers - multiset{g}), k, !s.canceled);
  }

  // Discovery ----------------------------------------------------------------------------

  /** A key without a task has no holders but workers on their way out. */
  lemma AbsentIsFree(t: Table, p: Pool, k: Key)
    requires Exclusive(t, p, k) && k !in t.tasks
    ensures forall w | w in p.crew && On(w, k) :: !Owning(w.stage) && w.ref.ordinal < t.next
    ensures forall j | j in p.jobs :: j.ref.key != k
    ensures forall g | g in p.gappers :: g.ref.key != k
    ensures forall m | m in p.timers && m.ref.key == k :: m.ref.ordinal < t.next
  {
  }

  /** A queued task, or one that waits for a playlist, is held by nobody. */
  lemma IdleTaskIsFree(t: Table, p: Pool, k: Key)
    requires Exclusive(t, p, k) && k in t.tasks && (t.tasks[k].phase == Queued || t.tasks[k].phase == AwaitManifest)
    ensures forall w | w in p.crew && On(w, k) :: !Live(t.tasks, w.ref) && !Owning(w.stage)
    ensures forall j | j in p.jobs :: j.ref.key != k
    ensures forall g | g in p.gappers :: g.ref.key != k
    ensures forall m | m in p.timers && m.ref.key == k && Live(t.tasks, m.ref) :: m.token < t.tasks[k].token
  {
  }

  lemma NewTaskOn(t: Table, p: Pool, u: Table, q: Pool, k: Key)
    requires Exclusive(t, p, k) && k !in t.tasks && t.next <= u.next
    requires k in u.tasks && u.tasks[k].ordinal == t.next && u.tasks[k].phase == Queued && t.next < u.next
    requires q.jobs == p.jobs && q.timers == p.timers && q.gappers == p.gappers && forall x: Worker | x.Busy? :: q.crew[x] == p.crew[x]
    ensures Exclusive(u, q, k) && HeldAt(u, q, k)
  {
    AbsentIsFree(t, p, k);
    assert forall w | w in q.crew && On(w, k) :: w in p.crew && !Live(u.tasks, w.ref);
    assert forall m | m in p.timers && m.ref.key == k :: !Live(u.tasks, m.ref);
  }

  /** A known task is offered again: only what it knows about the source changes. */
  lemma SeenTaskOn(t: Table, p: Pool, u: Table, q: Pool, k: Key, running: bool)
    requires Exclusive(t, p, k) && (running ==> HeldAt(t, p, k)) && k in t.tasks && k in u.tasks && t.next <= u.next
    requires u.tasks[k].ordinal == t.tasks[k].ordinal && u.tasks[k].token == t.tasks[k].token
    requires u.tasks[k].phase == RetryWait ==> u.tasks[k].available || !t.tasks[k].available
    requires u.tasks[k].phase == t.tasks[k].phase || (t.tasks[k].phase == AwaitManifest && u.tasks[k].phase == Queued)
    requires q.jobs == p.jobs && q.timers == p.timers && q.gappers == p.gappers && forall x: Worker | x.Busy? :: q.crew[x] == p.crew[x]
    ensures Exclusive(u, q, k) && (running ==> HeldAt(u, q, k))
  {
    if t.tasks[k].phase != u.tasks[k].phase { IdleTaskIsFree(t, p, k); }
    assert forall r: Ref | r.key == k :: Live(t.tasks, r) <==> Live(u.tasks, r);
    assert forall w | w in q.crew && On(w, k) :: w in p.crew;
    if running {
      var r := Ref(k, t.tasks[k].ordinal);
      if WorkerHolds(p.crew, r) {
        var w :| w in p.crew && w.Busy? && w.ref == r;
        assert w in q.crew;
      }
    }
  }

  lemma DiscoverTable(t: Table, k: Key, gen: nat, u: Table)
    requires TasksOk(t) && QueuedRefs(t.tasks, t.ready) && |t.tasks| <= MAX_TASKS && t.workers <= MAX_WORKERS
    requires TaskTable.Discover(t, k, gen) == Admitted(u)
    ensures TasksOk(u) && QueuedRefs(u.tasks, u.ready) && |u.tasks| <= MAX_TASKS
    ensures t.workers <= u.workers <= t.workers + 1 && u.workers <= MAX_WORKERS && t.next <= u.next && u.closed == t.closed
    ensures forall l | l != k :: (l in t.tasks <==> l in u.tasks) && (l in t.tasks ==> u.tasks[l] == t.tasks[l])
  {
    if k in t.tasks {
      var seen := t.tasks[k].(available := true, observed := true, observedGen := gen);
      if t.tasks[k].awaiting && gen >= t.tasks[k].requiredGen {
        EnqueueKeepsTasks(t, k, seen);
        EnqueueKeepsReady(t, k, seen);
      } else if t.tasks[k].phase != GapCommitting {
        PutKeepsTasks(t, k, seen);
        PutKeepsReady(t, k, seen);
      }
    } else {
      var n := t.(next := t.next + 1);
      EnqueueKeepsTasks(n, k, NewTask(t.next, gen));
      EnqueueKeepsReady(n, k, NewTask(t.next, gen));
    }
  }

  lemma AdmittedSame(t: Table, p: Pool, u: Table, q: Pool, l: Key)
    requires t.next <= u.next && (l in t.tasks <==> l in u.tasks) && (l in t.tasks ==> u.tasks[l] == t.tasks[l])
    requires q.jobs == p.jobs && q.timers == p.timers && q.gappers == p.gappers && forall x: Worker | x.Busy? :: q.crew[x] == p.crew[x]
    ensures SameAt(t, p, u, q, l)
  {
  }

  lemma AdmittedOn(t: Table, p: Pool, u: Table, q: Pool, k: Key, gen: nat, running: bool)
    requires TasksOk(t) && Exclusive(t, p, k) && (running ==> HeldAt(t, p, k)) && TaskTable.Discover(t, k, gen) == Admitted(u)
    requires q.jobs == p.jobs && q.timers == p.timers && q.gappers == p.gappers && forall x: Worker | x.Busy? :: q.crew[x] == p.crew[x]
    ensures Exclusive(u, q, k) && (running ==> HeldAt(u, q, k))
  {
    if k !in t.tasks {
      NewTaskOn(t, p, u, q, k);
    } else if t.tasks[k].phase == GapCommitting {
      AdmittedSame(t, p, u, q, k);
      FrameExclusive(t, p, u, q, k);
      if running { FrameHeld(t, p, u, q, k); }
    } else {
      SeenTaskOn(t, p, u, q, k, running);
    }
  }

  lemma AdmittedKeeps(t: Table, p: Pool, u: Table, q: Pool, k: Key, gen: nat, running: bool)
    requires Owned(t, p, running) && TaskTable.Discover(t, k, gen) == Admitted(u)
    requires q == p.(crew := if u.workers > t.workers then p.crew + multiset{Idle(true)} else p.crew)
    ensures Owned(u, q, running)
  {
    assert Exclusive(t, p, k) && (running ==> HeldAt(t, p, k));
    AdmittedOn(t, p, u, q, k, gen, running);
    DiscoverTable(t, k, gen, u);
    forall l | l != k ensures SameAt(t, p, u, q, l) { AdmittedSame(t, p, u, q, l); }
    OneKey(t, p, u, q, k, running, running);
  }

  /** The table and pool are as before, up to a failure that cancels the run. */
  lemma Untouched(s: State, t: State)
    requires Inv(s) && t.pool == s.pool && t.table == s.table.(closed := t.table.closed)
    requires s.canceled ==> t.canceled
    requires t.table.closed ==> s.table.closed || t.canceled
    ensures Inv(t)
  {
    CrewChanges(s.table, s.pool, t.table, t.pool, !s.canceled, !t.canceled);
  }

  lemma DiscoverKeeps(s: State)
    requires Inv(s) && CanDiscover(s)
    ensures Inv(DiscoverNext(s))
  {
    var d := DiscoverNext(s);
    var k, gen := KeyInHand(s), s.poll.gen;
    if Current(s.clock, s.media, gen) && !s.poll.playlist[s.poll.index].gap && !Settled(s.book.ledger, k) && !s.table.closed &&
       TaskTable.Discover(s.table, k, gen).Admitted? {
      var u := TaskTable.Discover(s.table, k, gen).table;
      DiscoverTable(s.table, k, gen, u);
      AdmittedKeeps(s.table, s.pool, u, d.pool, k, gen, !s.canceled);
    } else {
      Untouched(s, d);
    }
  }

  // Sweeps over the whole table ---------------------------------------------------------------

  /** What observeAtGeneration and endList may do to a task. */
  predicate SweptTo(before: Task, after: Task) {
    && after.ordinal == before.ordinal
    && (after.awaiting <==> after.phase == AwaitManifest)
    && (|| (after.phase == before.phase && after.token == before.token && (before.phase == RetryWait ==> after.available == before.available))
        || (after.phase == before.phase && after.token == before.token && after.available)
        || (before.phase == AwaitManifest && after.phase == Queued && after.token == before.token)
        || (Waits(before.phase) && after.phase == GapCommitting && after.token == before.token + 1))
  }

  ghost predicate SweptTasks(t: Table, u: Table) {
    && t.tasks.Keys == u.tasks.Keys && t.next == u.next
    && forall k | k in t.tasks :: SweptTo(t.tasks[k], u.tasks[k])
  }

  lemma GappersOfCounts(refs: set<Ref>, g: Gapper)
    ensures GappersOf(refs)[g] == if !g.marked && g.ref in refs then 1 else 0
  {
    if !g.marked && g.ref in refs { assert g == Gapper(g.ref, false); }
  }

  lemma ExpiredOn(t: Table, u: Table, k: Key)
    requires SweptTasks(t, u)
    ensures forall r: Ref | r.key == k :: r in Expired(t.tasks, u.tasks) <==>
      Live(t.tasks, r) && t.tasks[k].phase != GapCommitting && u.tasks[k].phase == GapCommitting
  {
    forall r: Ref | r.key == k && Live(t.tasks, r) && t.tasks[k].phase != GapCommitting && u.tasks[k].phase == GapCommitting
      ensures r in Expired(t.tasks, u.tasks)
    {
      assert r == Ref(k, t.tasks[k].ordinal);
    }
  }

  /** A waiting task has no holder but its timer. */
  lemma WaitingTaskIsFree(t: Table, p: Pool, k: Key)
    requires Exclusive(t, p, k) && k in t.tasks && Waits(t.tasks[k].phase)
    ensures forall w | w in p.crew && On(w, k) :: !Live(t.tasks, w.ref) && !Owning(w.stage)
    ensures forall j | j in p.jobs :: j.ref.key != k
    ensures forall g | g in p.gappers :: g.ref.key != k
  {
  }

  /** A task that expires had no other holder, and gets a gap commit. */
  lemma ExpiresOn(t: Table, p: Pool, u: Table, q: Pool, k: Key)
    requires Exclusive(t, p, k) && k in t.tasks && k in u.tasks && t.next == u.next
    requires SweptTo(t.tasks[k], u.tasks[k]) && t.tasks[k].phase != GapCommitting && u.tasks[k].phase == GapCommitting
    requires q.jobs == p.jobs && q.timers == p.timers && q.crew == p.crew
    requires q.gappers == p.gappers + multiset{Gapper(Ref(k, t.tasks[k].ordinal), false)}
    ensures Exclusive(u, q, k) && HeldAt(u, q, k)
  {
    var r := Ref(k, t.tasks[k].ordinal);
    WaitingTaskIsFree(t, p, k);
    assert forall x: Ref | x.key == k :: Live(t.tasks, x) <==> Live(u.tasks, x);
    assert forall g | g in q.gappers && g.ref.key == k :: g == Gapper(r, false);
    assert GappersOn(u, q.crew, q.gappers, k);
    assert Gapper(r, false) in q.gappers;
  }

  lemma ExpiresAt(t: Table, p: Pool, u: Table, q: Pool, k: Key)
    requires Exclusive(t, p, k) && k in t.tasks && k in u.tasks && t.next == u.next
    requires SweptTo(t.tasks[k], u.tasks[k]) && t.tasks[k].phase != GapCommitting && u.tasks[k].phase == GapCommitting
    requires q.jobs == p.jobs && q.timers == p.timers && forall x: Worker | x.Busy? :: q.crew[x] == p.crew[x]
    requires forall g: Gapper | g.ref.key == k :: q.gappers[g] == p.gappers[g] + if g == Gapper(Ref(k, t.tasks[k].ordinal), false) then 1 else 0
    ensures Exclusive(u, q, k) && HeldAt(u, q, k)
  {
    var m := p.(gappers := p.gappers + multiset{Gapper(Ref(k, t.tasks[k].ordinal), false)});
    ExpiresOn(t, p, u, m, k);
    FrameExclusive(u, m, u, q, k);
    FrameHeld(u, m, u, q, k);
  }

  lemma SweptOn(t: Table, p: Pool, u: Table, q: Pool, k: Key, running: bool)
    requires Exclusive(t, p, k) && (running ==> HeldAt(t, p, k)) && k in t.tasks && k in u.tasks && t.next == u.next
    requires SweptTo(t.tasks[k], u.tasks[k]) && (t.tasks[k].phase == GapCommitting || u.tasks[k].phase != GapCommitting)
    requires q.jobs == p.jobs && q.timers == p.timers && forall x: Worker | x.Busy? :: q.crew[x] == p.crew[x]
    requires forall g: Gapper | g.ref.key == k :: q.gappers[g] == p.gappers[g]
    ensures Exclusive(u, q, k) && (running ==> HeldAt(u, q, k))
  {
    SeenTaskOn(t, p, u, p, k, running);
    FrameExclusive(u, p, u, q, k);
    if running { FrameHeld(u, p, u, q, k); }
  }

  lemma SweepKeepsAll(t: Table, p: Pool, u: Table, q: Pool, running: bool)
    requires Owned(t, p, running) && SweptTasks(t, u) && QueuedRefs(u.tasks, u.ready) && BoundsOk(u, q.crew)
    requires q.jobs == p.jobs && q.timers == p.timers && forall x: Worker | x.Busy? :: q.crew[x] == p.crew[x]
    requires q.gappers == p.gappers + GappersOf(Expired(t.tasks, u.tasks))
    ensures Owned(u, q, running)
  {
    forall k ensures Exclusive(u, q, k) && (running ==> HeldAt(u, q, k)) {
      assert Exclusive(t, p, k) && (running ==> HeldAt(t, p, k));
      ExpiredOn(t, u, k);
      forall g: Gapper | g.ref.key == k
        ensures q.gappers[g] == p.gappers[g] + if !g.marked && g.ref in Expired(t.tasks, u.tasks) then 1 else 0
      {
        GappersOfCounts(Expired(t.tasks, u.tasks), g);
      }
      if k !in t.tasks {
        assert forall r: Ref | r.key == k :: r !in Expired(t.tasks, u.tasks);
        FrameExclusive(t, p, u, q, k);
        if running { FrameHeld(t, p, u, q, k); }
      } else if t.tasks[k].phase != GapCommitting && u.tasks[k].phase == GapCommitting {
        ExpiresAt(t, p, u, q, k);
      } else {
        SweptOn(t, p, u, q, k, running);
      }
    }
    SweptTasksOk(t, u);
  }

  lemma SweptTasksOk(t: Table, u: Table)
    requires TasksOk(t) && SweptTasks(t, u)
    ensures TasksOk(u)
  {
    forall k | k in u.tasks ensures u.tasks[k].ordinal < u.next && (u.tasks[k].awaiting <==> u.tasks[k].phase == AwaitManifest) {
      assert SweptTo(t.tasks[k], u.tasks[k]);
    }
  }

  lemma UnexpiredReady(t: Table, u: Table)
    requires QueuedRefs(t.tasks, t.ready) && SweptTasks(t, u) && Expired(t.tasks, u.tasks) == {}
    requires forall k | k in t.tasks && t.tasks[k].phase == AwaitManifest :: u.tasks[k].phase != Queued
    ensures QueuedRefs(u.tasks, t.ready)
  {
    forall k | k in t.tasks ensures u.tasks[k].phase == t.tasks[k].phase && u.tasks[k].ordinal == t.tasks[k].ordinal {
      assert SweptTo(t.tasks[k], u.tasks[k]);
      ExpiredOn(t, u, k);
      assert Live(t.tasks, Ref(k, t.tasks[k].ordinal));
    }
    forall i | 0 <= i < |t.ready| ensures Live(u.tasks, t.ready[i]) && u.tasks[t.ready[i].key].phase == Queued {
      assert Live(t.tasks, t.ready[i]);
    }
  }

  lemma SweepTaskIsSwept(k: Key, task: Task, epoch: Uint64, playlist: seq<MediaSegment>)
    requires playlist != [] && (task.awaiting <==> task.phase == AwaitManifest)
    ensures SweptTo(task, SweepTask(k, task, epoch, playlist))
    ensures task.phase == AwaitManifest ==> SweepTask(k, task, epoch, playlist).phase != Queued
  {
  }

  lemma SweepIsSwept(t: Table, epoch: Uint64, playlist: seq<MediaSegment>, ready: seq<Ref>)
    requires TasksOk(t) && QueuedRefs(t.tasks, t.ready) && playlist != []
    requires Rebuilt(t, TaskTable.Sweep(t.tasks, epoch, playlist), ready)
    ensures var u := t.(tasks := TaskTable.Sweep(t.tasks, epoch, playlist), ready := ready);
      SweptTasks(t, u) && QueuedRefs(u.tasks, u.ready) && |u.tasks| == |t.tasks|
  {
    var u := t.(tasks := TaskTable.Sweep(t.tasks, epoch, playlist), ready := ready);
    forall k | k in t.tasks
      ensures SweptTo(t.tasks[k], u.tasks[k]) && (t.tasks[k].phase == AwaitManifest ==> u.tasks[k].phase != Queued)
    {
      SweepTaskIsSwept(k, t.tasks[k], epoch, playlist);
    }
    assert |u.tasks.Keys| == |t.tasks.Keys|;
    if Expired(t.tasks, u.tasks) == {} { UnexpiredReady(t, u); }
  }

  lemma SweepKeeps(s: State, ready: seq<Ref>)
    requires Inv(s) && CanSweep(s, ready)
    ensures Inv(Acquisition.Sweep(s, ready))
  {
    var d, t := Acquisition.Sweep(s, ready), s.table;
    if !Current(s.clock, s.media, s.poll.gen) {
      Untouched(s, d);
    } else {
      SweepIsSwept(t, s.poll.epoch, s.poll.playlist, ready);
      SweepKeepsAll(t, s.pool, d.table, d.pool, !s.canceled);
    }
  }

  lemma EndedReady(t: Table, requeued: seq<Ref>)
    requires QueuedRefs(t.tasks, t.ready) && Requeues(t.tasks, requeued)
    ensures QueuedRefs(EndTasks(t.tasks), t.ready + requeued)
  {
    var u, ready := EndTasks(t.tasks), t.ready + requeued;
    forall i | 0 <= i < |ready| ensures Live(u, ready[i]) && u[ready[i].key].phase == Queued {
      if i < |t.ready| { assert Live(t.tasks, t.ready[i]); } else { assert ready[i] in requeued; }
    }
    forall i, j | 0 <= i < j < |ready| ensures ready[i] != ready[j] {
      if i < |t.ready| <= j {
        assert ready[j] in requeued && t.tasks[ready[j].key].phase == AwaitManifest;
      }
    }
    forall k | k in u && u[k].phase == Queued ensures Ref(k, u[k].ordinal) in ready {
      var r := Ref(k, u[k].ordinal);
      if t.tasks[k].phase == Queued { assert r in t.ready; } else { assert r in requeued; }
    }
  }

  lemma EndIsSwept(t: Table, requeued: seq<Ref>)
    requires TasksOk(t) && QueuedRefs(t.tasks, t.ready) && Requeues(t.tasks, requeued) && t.workers <= MAX_WORKERS
    ensures var u := EndListTable(t, requeued);
      && SweptTasks(t, u) && QueuedRefs(u.tasks, u.ready) && |u.tasks| == |t.tasks|
      && t.workers <= u.workers <= t.workers + 1 && u.workers <= MAX_WORKERS && u.closed == t.closed
  {
    var u := EndListTable(t, requeued);
    assert u.tasks == EndTasks(t.tasks) && u.ready == t.ready + requeued;
    forall k | k in t.tasks ensures SweptTo(t.tasks[k], u.tasks[k]) {
      assert t.tasks[k].awaiting <==> t.tasks[k].phase == AwaitManifest;
    }
    assert |u.tasks.Keys| == |t.tasks.Keys|;
    EndedReady(t, requeued);
  }

  lemma EndListSweeps(s: State, requeued: seq<Ref>)
    requires Inv(s) && CanEnd(s, requeued) && Current(s.clock, s.media, s.poll.gen)
    ensures Inv(EndList(s, requeued))
  {
    var d := EndList(s, requeued);
    EndIsSwept(s.table, requeued);
    SweepKeepsAll(s.table, s.pool, d.table, d.pool, !s.canceled);
  }

  lemma EndListKeeps(s: State, requeued: seq<Ref>)
    requires Inv(s) && CanEnd(s, requeued)
    ensures Inv(EndList(s, requeued))
  {
    if Current(s.clock, s.media, s.poll.gen) {
      EndListSweeps(s, requeued);
    } else {
      Untouched(s, s.(poll := Rest));
    }
  }

  lemma SettleKeeps(s: State)
    requires Inv(s) && Joined(s)
    ensures Inv(Settle(s))
  {
    var u := Settle(s).table;
    forall k ensures Exclusive(u, s.pool, k) && HeldAt(u, s.pool, k) {}
  }

  // Runs ----------------------------------------------------------------------------------------

  predicate OfWorker(a: Action) {
    || a.ATake? || a.AExit? || a.AEnter? || a.AFetchEnd? || a.ARefreshEnd? || a.ARefreshFail? || a.ASubmitEnd?
    || a.AMarkPersisting? || a.ALeave? || a.AAwait? || a.AGapMark? || a.AGapDone?
  }

  predicate OfTable(a: Action) {
    || a.AJobCommit? || a.AJobFail? || a.AJobDone? || a.ATimerEnd? || a.ASweep? || a.ADiscoverNext? || a.AEndList?
    || a.AGapperMark? || a.AGapperDone? || a.ASettle?
  }

  predicate OfEnvironment(a: Action) {
    || a.ARefreshCommit? || a.ANoteGeneration? || a.ACancel? || a.AQueueSnapshot? || a.ASnapshotDone? || a.AMetadataDone?
  }

  ghost predicate TouchesNothing(s: State, t: State) {
    && t.pool == s.pool && t.table == s.table.(closed := t.table.closed) && (s.canceled ==> t.canceled)
    && (t.table.closed ==> s.table.closed || t.canceled)
  }

  lemma RefreshTouchesNothing(s: State, gen: nat)
    ensures TouchesNothing(s, RefreshCommit(s)) && TouchesNothing(s, Cancel(s))
    ensures gen <= s.media ==> TouchesNothing(s, NoteGeneration(s, gen))
  {
  }

  lemma IngestTouchesNothing(s: State, ok: bool)
    ensures s.poll == Rest && !s.table.closed ==> TouchesNothing(s, QueueSnapshot(s))
    ensures s.snapshots > 0 ==> TouchesNothing(s, SnapshotDone(s, ok))
    ensures s.metadata > 0 ==> TouchesNothing(s, MetadataDone(s, ok))
  {
  }

  predicate OfIngest(a: Action) { a.AQueueSnapshot? || a.ASnapshotDone? || a.AMetadataDone? }

  lemma IngestStepTouchesNothing(s: State, a: Action, t: State)
    requires Step(s, a, t) && OfIngest(a)
    ensures TouchesNothing(s, t)
  {
    if a.AQueueSnapshot? { IngestTouchesNothing(s, true); } else { IngestTouchesNothing(s, a.ok); }
  }

  lemma EnvironmentTouchesNothing(s: State, a: Action, t: State)
    requires Step(s, a, t) && OfEnvironment(a)
    ensures TouchesNothing(s, t)
  {
    if OfIngest(a) { IngestStepTouchesNothing(s, a, t); }
    else if a.ANoteGeneration? { RefreshTouchesNothing(s, a.gen); }
    else { RefreshTouchesNothing(s, 0); }
  }

  lemma ObservationTouchesNothing(s: State, changed: bool, ok: bool)
    ensures s.poll.Started? ==> TouchesNothing(s, Guard(s))
    ensures s.poll.Guarded? && s.poll.playlist != [] ==> TouchesNothing(s, ObserveRoot(s, changed))
    ensures s.poll.Observed? ==> TouchesNothing(s, QueueRoot(s, ok))
    ensures s.poll.Waiting? ==> TouchesNothing(s, Wake(s))
    ensures CanGiveUp(s) ==> TouchesNothing(s, GiveUp(s, ok))
  {
  }

  lemma BeginTouchesNothing(s: State, playlist: seq<MediaSegment>, endList: bool, gen: nat)
    requires CanBegin(s, playlist)
    ensures TouchesNothing(s, Begin(s, playlist, endList, gen))
  {
  }

  lemma EndTouchesNothing(s: State, saved: bool)
    ensures CanFinishDiscovery(s) ==> TouchesNothing(s, FinishDiscovery(s))
    ensures CanDrain(s) ==> TouchesNothing(s, Drain(s))
    ensures s.poll.Publishing? ==> TouchesNothing(s, Publish(s, saved))
    ensures s.poll == Rest ==> TouchesNothing(s, CloseTable(s))
    ensures CanStop(s) ==> TouchesNothing(s, Stop(s))
  {
  }

  lemma PollerTouchesNothing(s: State, a: Action, t: State)
    requires Step(s, a, t) && !OfWorker(a) && !OfTable(a) && !OfEnvironment(a)
    ensures TouchesNothing(s, t)
  {
    if a.ABegin? { BeginTouchesNothing(s, a.playlist, a.endList, a.gen); }
    else if a.AObserveRoot? { ObservationTouchesNothing(s, a.identityChanged, true); }
    else if a.AQueueRoot? { ObservationTouchesNothing(s, true, a.ok); }
    else if a.AGiveUp? { ObservationTouchesNothing(s, true, a.saved); }
    else if a.AGuard? || a.AWake? { ObservationTouchesNothing(s, true, true); }
    else if a.APublish? { EndTouchesNothing(s, a.saved); }
    else { EndTouchesNothing(s, true); }
  }

  lemma WorkerStepKeeps(s: State, a: Action, t: State)
    requires Inv(s) && Step(s, a, t) && OfWorker(a)
    ensures Inv(t)
  {
    if a.ATake? { TakeKeeps(s, a.worker); }
    else if a.AExit? { ExitKeeps(s, a.worker); }
    else if a.AEnter? { EnterKeeps(s, a.worker); }
    else if a.AFetchEnd? { FetchKeeps(s, a.worker, a.fetched); }
    else if a.ARefreshEnd? { RefreshKeeps(s, a.worker, a.gen); }
    else if a.ARefreshFail? { RefreshFailKeeps(s, a.worker); }
    else if a.ASubmitEnd? { SubmitKeeps(s, a.worker, a.admitted); }
    else if a.AMarkPersisting? { PersistingKeeps(s, a.worker); }
    else if a.ALeave? { LeaveKeeps(s, a.worker, a.saved); }
    else if a.AAwait? { AwaitKeeps(s, a.worker); }
    else if a.AGapMark? { GapMarkKeeps(s, a.worker, a.saved); }
    else if a.AGapDone? { GapDoneKeeps(s, a.worker); }
  }

  predicate OfJob(a: Action) {
    a.AJobCommit? || a.AJobFail? || a.AJobDone? || a.AGapperMark? || a.AGapperDone?
  }

  lemma JobStepKeeps(s: State, a: Action, t: State)
    requires Inv(s) && Step(s, a, t) && OfJob(a)
    ensures Inv(t)
  {
    if a.AJobCommit? { JobCommitKeeps(s, a.job); }
    else if a.AJobFail? { JobFailKeeps(s, a.job); }
    else if a.AJobDone? { JobDoneKeeps(s, a.job); }
    else if a.AGapperMark? { GapperMarkKeeps(s, a.gapper, a.saved); }
    else if a.AGapperDone? { GapperDoneKeeps(s, a.gapper); }
  }

  lemma TableStepKeeps(s: State, a: Action, t: State)
    requires Inv(s) && Step(s, a, t) && OfTable(a) && !OfJob(a)
    ensures Inv(t)
  {
    if a.ATimerEnd? { TimerKeeps(s, a.timer); }
    else if a.ASweep? { SweepKeeps(s, a.ready); }
    else if a.ADiscoverNext? { DiscoverKeeps(s); }
    else if a.AEndList? { EndListKeeps(s, a.requeued); }
    else if a.ASettle? { SettleKeeps(s); }
  }

  /** Every step keeps ownership. */
  lemma StepKeeps(s: State, a: Action, t: State)
    requires Inv(s) && Step(s, a, t)
    ensures Inv(t)
  {
    if OfWorker(a) {
      WorkerStepKeeps(s, a, t);
    } else if OfJob(a) {
      JobStepKeeps(s, a, t);
    } else if OfTable(a) {
      TableStepKeeps(s, a, t);
    } else {
      if OfEnvironment(a) { EnvironmentTouchesNothing(s, a, t); } else { PollerTouchesNothing(s, a, t); }
      Untouched(s, t);
    }
  }

  /** Every state of every run is well owned. */
  lemma {:induction false} RunKeepsOwnership(states: seq<State>, actions: seq<Action>, i: nat)
    requires Run(states, actions) && Inv(states[0]) && i < |states|
    ensures Inv(states[i])
  {
    if i > 0 {
      RunKeepsOwnership(states, actions, i - 1);
      StepKeeps(states[i - 1], actions[i - 1], states[i - 1 + 1]);
    }
  }

  /** A fresh scheduler: no task, or the one a handover candidate brings along. */
  ghost predicate FreshTable(t: Table, p: Pool) {
    && p == Pool(multiset{Idle(false)}, multiset{}, multiset{}, multiset{}) && t.workers == 1 && !t.closed
    && (|| (t.tasks == map[] && t.ready == [])
        || (exists k, task ::
              && t.tasks == map[k := task] && t.ready == [Ref(k, task.ordinal)] && task.phase == Queued
              && task.ordinal < t.next && !task.awaiting))
  }

  lemma FreshIsOwned(t: Table, p: Pool)
    requires FreshTable(t, p)
    ensures Owned(t, p, true)
  {
    forall k ensures Exclusive(t, p, k) && HeldAt(t, p, k) {}
  }

  /** How many goroutines are committing a gap for `r`. */
  ghost function Committers(p: Pool, r: Ref): nat {
    p.gappers[Gapper(r, false)] + p.gappers[Gapper(r, true)] +
    p.crew[Busy(false, r, Stage.Gap(false))] + p.crew[Busy(false, r, Stage.Gap(true))] +
    p.crew[Busy(true, r, Stage.Gap(false))] + p.crew[Busy(true, r, Stage.Gap(true))]
  }

  lemma GapWorkerIsOne(crew: multiset<Worker>, t: Table, r: Ref, w: Worker)
    requires CrewOn(t, crew, r.key) && w in crew && w.Busy? && w.ref == r && w.stage.Gap?
    ensures crew[Busy(false, r, Stage.Gap(false))] + crew[Busy(false, r, Stage.Gap(true))] +
      crew[Busy(true, r, Stage.Gap(false))] + crew[Busy(true, r, Stage.Gap(true))] == 1
  {
    var a, b, c, d := Busy(false, r, Stage.Gap(false)), Busy(false, r, Stage.Gap(true)), Busy(true, r, Stage.Gap(false)), Busy(true, r, Stage.Gap(true));
    assert On(a, r.key) && On(b, r.key) && On(c, r.key) && On(d, r.key) && On(w, r.key);
    assert w == a || w == b || w == c || w == d;
  }

  lemma WorkerCommitsAlone(t: Table, p: Pool, k: Key, w: Worker)
    requires Exclusive(t, p, k) && HeldAt(t, p, k) && k in t.tasks && t.tasks[k].phase == GapCommitting
    requires w in p.crew && w.Busy? && w.ref == Ref(k, t.tasks[k].ordinal)
    ensures Committers(p, w.ref) == 1
  {
    assert On(w, k);
    GapWorkerIsOne(p.crew, t, w.ref, w);
    assert forall g | g in p.gappers && g.ref.key == k :: g.ref != w.ref;
  }

  lemma PollerCommitsAlone(t: Table, p: Pool, k: Key)
    requires Exclusive(t, p, k) && HeldAt(t, p, k) && k in t.tasks && t.tasks[k].phase == GapCommitting
    requires !WorkerHolds(p.crew, Ref(k, t.tasks[k].ordinal))
    ensures Committers(p, Ref(k, t.tasks[k].ordinal)) == 1
  {
    var r := Ref(k, t.tasks[k].ordinal);
    assert forall w | w in p.crew && w.Busy? :: w.ref != r;
    assert forall g, h | g in p.gappers && h in p.gappers && g.ref == r && h.ref == r :: g == h && p.gappers[g] == 1;
  }

  lemma GapHasOneCommitter(t: Table, p: Pool, k: Key)
    requires Exclusive(t, p, k) && HeldAt(t, p, k) && k in t.tasks && t.tasks[k].phase == GapCommitting
    ensures Committers(p, Ref(k, t.tasks[k].ordinal)) == 1
  {
    if WorkerHolds(p.crew, Ref(k, t.tasks[k].ordinal)) {
      var w :| w in p.crew && w.Busy? && w.ref == Ref(k, t.tasks[k].ordinal);
      WorkerCommitsAlone(t, p, k, w);
    } else {
      PollerCommitsAlone(t, p, k);
    }
  }

  /** While the scheduler runs: ready lists exactly the queued tasks; a waiting
      task is available and has one timer with its token; a task that becomes a
      gap has exactly one committer; no two workers share a task. */
  lemma OwnershipMeans(s: State, k: Key)
    requires Inv(s) && !s.canceled && k in s.table.tasks
    ensures var task, r := s.table.tasks[k], Ref(k, s.table.tasks[k].ordinal);
      && (task.phase == Queued <==> r in s.table.ready)
      && (task.phase == RetryWait ==> task.available && s.pool.timers[Timer(r, task.token)] == 1)
      && (task.phase == GapCommitting ==> Committers(s.pool, r) == 1)
      && (task.phase == InFlight || task.phase == Refreshing || task.phase == Buffered ==> WorkerHolds(s.pool.crew, r))
      && (task.phase == Persisting ==> JobHolds(s.pool.jobs, r))
      && (task.awaiting <==> task.phase == AwaitManifest)
      && (forall v, w | v in s.pool.crew && w in s.pool.crew && v.Busy? && w.Busy? && v.ref == r && w.ref == r :: v == w && s.pool.crew[v] == 1)
  {
    var t, p, task, r := s.table, s.pool, s.table.tasks[k], Ref(k, s.table.tasks[k].ordinal);
    assert Exclusive(t, p, k) && HeldAt(t, p, k);
    if r in t.ready {
      var i :| 0 <= i < |t.ready| && t.ready[i] == r;
    }
    if task.phase == GapCommitting { GapHasOneCommitter(t, p, k); }
    assert forall v: Worker | v.Busy? && v.ref == r :: On(v, k);
  }
}
