/** What one scheduler lifetime commits: distinct new objects under distinct new
    ordinals, in whatever order its workers finish. This is the assumption of the
    commit-order theorem in Commits.dfy. */
module CommitLog {
  import opened Archive
  import opened TaskTable
  import opened Acquisition
  import C = Commits
  import O = Ownership
  import L = NoLoss

  ghost predicate OrdinalsOk(t: Table, first: Uint64) {
    && (forall k | k in t.tasks :: first <= t.tasks[k].ordinal < t.next)
    && (forall k, l | k in t.tasks && l in t.tasks && k != l :: t.tasks[k].ordinal != t.tasks[l].ordinal)
  }

  predicate Used(log: seq<Ref>, ordinal: Uint64) { exists i | 0 <= i < |log| :: log[i].ordinal == ordinal }

  /** The objects in a log. */
  ghost function KeysOf(log: seq<Ref>): iset<Key> {
    if log == [] then iset{} else KeysOf(log[..|log| - 1]) + iset{log[|log| - 1].key}
  }

  lemma {:induction false} LoggedKey(log: seq<Ref>, i: nat)
    requires i < |log|
    ensures log[i].key in KeysOf(log)
  {
    if i < |log| - 1 { LoggedKey(log[..|log| - 1], i); }
  }

  /** The log of a lifetime that started with `archived` objects and ordinal `first`. */
  ghost predicate LogOk(t: Table, b: Book, archived: iset<Key>, first: Uint64) {
    && (forall i | 0 <= i < |b.log| :: first <= b.log[i].ordinal < t.next && b.log[i].key !in archived)
    && (forall i, j | 0 <= i < j < |b.log| :: b.log[i].ordinal != b.log[j].ordinal && b.log[i].key != b.log[j].key)
    && b.ledger.captured == archived + KeysOf(b.log)
  }

  /** A committed task that is still there is the one its job committed. */
  ghost predicate LogMeetsTasks(t: Table, b: Book, p: Pool) {
    forall k | k in t.tasks && Used(b.log, t.tasks[k].ordinal) ::
      Ref(k, t.tasks[k].ordinal) in b.log && Job(Ref(k, t.tasks[k].ordinal), true) in p.jobs
  }

  ghost predicate LogInv(s: State, archived: iset<Key>, first: Uint64) {
    OrdinalsOk(s.table, first) && LogOk(s.table, s.book, archived, first) && LogMeetsTasks(s.table, s.book, s.pool)
  }

  /** No new task and no commit on the way from `s` to `t`. */
  ghost predicate Quiet(s: State, t: State) {
    && t.book.log == s.book.log && t.book.ledger.captured == s.book.ledger.captured && s.table.next <= t.table.next
    && (forall k | k in t.table.tasks :: k in s.table.tasks && t.table.tasks[k].ordinal == s.table.tasks[k].ordinal)
    && (forall r | Live(t.table.tasks, r) && Job(r, true) in s.pool.jobs :: Job(r, true) in t.pool.jobs)
  }

  lemma QuietKeeps(s: State, t: State, archived: iset<Key>, first: Uint64)
    requires LogInv(s, archived, first) && Quiet(s, t)
    ensures LogInv(t, archived, first)
  {
    forall k | k in t.table.tasks && Used(t.book.log, t.table.tasks[k].ordinal)
      ensures Ref(k, t.table.tasks[k].ordinal) in t.book.log && Job(Ref(k, t.table.tasks[k].ordinal), true) in t.pool.jobs
    {
      assert Live(t.table.tasks, Ref(k, t.table.tasks[k].ordinal));
    }
  }

  lemma EditsAreQuiet(s: State, t: State)
    requires L.Edits(s, t)
    ensures Quiet(s, t)
  {
  }

  lemma LeaveFailedIsQuiet(s: State, w: Worker, saved: bool)
    requires CanLeave(s, w) && Live(s.table.tasks, w.ref)
    ensures Quiet(s, LeaveFailed(s.(table := s.table.(busy := s.table.busy - 1)), w, saved))
  {
  }

  lemma LeaveIsQuiet(s: State, w: Worker, saved: bool)
    requires CanLeave(s, w) && (Live(s.table.tasks, w.ref) ==> w.stage.outcome != Removed)
    ensures Quiet(s, Leave(s, w, saved))
  {
    L.LeaveCases(s, w, saved);
    var t, b := Leave(s, w, saved), s.(table := s.table.(busy := s.table.busy - 1));
    if w.stage.outcome == FetchFailed && Live(s.table.tasks, w.ref) && t == LeaveFailed(b, w, saved) {
      LeaveFailedIsQuiet(s, w, saved);
    } else {
      LeftIsQuiet(s, b, w);
    }
  }

  lemma LeftIsQuiet(s: State, b: State, w: Worker)
    requires b == s.(table := s.table.(busy := s.table.busy - 1))
    ensures Quiet(s, Free(b, w)) && Quiet(s, Halt(Free(b, w))) && Quiet(s, Halt(Retire(b, w)))
    ensures w.Busy? ==> Quiet(s, To(b, w, Awaiting))
  {
  }

  lemma FetchIsQuiet(s: State, w: Worker, result: Fetched)
    requires O.Inv(s) && CanFetch(s, w, result)
    ensures Quiet(s, FetchEnd(s, w, result))
  {
    if result != IngestClosed {
      O.OwnerTask(s.table, s.pool, w, !s.canceled);
      L.FetchEdits(s, w, result);
      EditsAreQuiet(s, FetchEnd(s, w, result));
    }
  }

  lemma SubmitIsQuiet(s: State, w: Worker, result: Admitted)
    requires CanSubmit(s, w)
    ensures Quiet(s, SubmitEnd(s, w, result))
  {
    if result != Closed {
      L.SubmitEdits(s, w, result);
      EditsAreQuiet(s, SubmitEnd(s, w, result));
    }
  }

  lemma GapIsQuiet(s: State, w: Worker, saved: bool)
    ensures At(s, w, Stage.Gap(false)) ==> Quiet(s, GapMark(s, w, saved))
    ensures At(s, w, Stage.Gap(true)) ==> Quiet(s, GapDone(s, w))
  {
  }

  lemma LeftQuietly(s: State, a: Action, t: State)
    requires O.Inv(s) && Step(s, a, t) && a.ALeave?
    ensures Quiet(s, t)
  {
    assert O.Exclusive(s.table, s.pool, a.worker.ref.key) && O.On(a.worker, a.worker.ref.key);
    LeaveIsQuiet(s, a.worker, a.saved);
  }

  lemma WorkerIsQuiet(s: State, a: Action, t: State)
    requires O.Inv(s) && Step(s, a, t) && O.OfWorker(a) && !L.OfEdit(a) && !a.ALeave?
    ensures Quiet(s, t)
  {
    if a.AFetchEnd? { FetchIsQuiet(s, a.worker, a.fetched); }
    else if a.ASubmitEnd? { SubmitIsQuiet(s, a.worker, a.admitted); }
    else if a.AGapMark? { GapIsQuiet(s, a.worker, a.saved); }
    else if a.AGapDone? { GapIsQuiet(s, a.worker, true); }
  }

  lemma JobEndIsQuiet(s: State, j: Job)
    ensures CanCommit(s, j) ==> Quiet(s, JobFail(s, j))
    ensures CanFinish(s, j) ==> Quiet(s, JobDone(s, j))
  {
  }

  lemma GapperIsQuiet(s: State, g: Gapper, saved: bool)
    requires g in s.pool.gappers
    ensures !g.marked ==> Quiet(s, GapperMark(s, g, saved))
    ensures g.marked ==> Quiet(s, GapperDone(s, g))
  {
  }

  lemma GapperStepIsQuiet(s: State, a: Action, t: State)
    requires Step(s, a, t) && (a.AGapperMark? || a.AGapperDone?)
    ensures Quiet(s, t)
  {
    if a.AGapperMark? { GapperIsQuiet(s, a.gapper, a.saved); } else { GapperIsQuiet(s, a.gapper, true); }
  }

  lemma JobIsQuiet(s: State, a: Action, t: State)
    requires Step(s, a, t) && (a.AJobFail? || a.AJobDone? || a.AGapperMark? || a.AGapperDone?)
    ensures Quiet(s, t)
  {
    if a.AJobFail? || a.AJobDone? { JobEndIsQuiet(s, a.job); } else { GapperStepIsQuiet(s, a, t); }
  }

  lemma TimerIsQuiet(s: State, m: Timer)
    requires O.Inv(s) && m in s.pool.timers
    ensures Quiet(s, TimerEnd(s, m))
  {
    assert O.Exclusive(s.table, s.pool, m.ref.key);
    L.TimerEdits(s, m);
    EditsAreQuiet(s, TimerEnd(s, m));
  }

  lemma SweptIsQuiet(s: State, t: State)
    requires O.SweptTasks(s.table, t.table) && t.book == s.book && t.pool.jobs == s.pool.jobs
    ensures Quiet(s, t)
  {
    forall k | k in t.table.tasks ensures O.SweptTo(s.table.tasks[k], t.table.tasks[k]) {}
  }

  lemma SweepIsQuiet(s: State, ready: seq<Ref>)
    requires O.TasksOk(s.table) && QueuedRefs(s.table.tasks, s.table.ready) && CanSweep(s, ready)
    ensures Quiet(s, Acquisition.Sweep(s, ready))
  {
    O.SweepIsSwept(s.table, s.poll.epoch, s.poll.playlist, ready);
    if Current(s.clock, s.media, s.poll.gen) { SweptIsQuiet(s, Acquisition.Sweep(s, ready)); }
  }

  lemma EndListIsQuiet(s: State, requeued: seq<Ref>)
    requires O.TasksOk(s.table) && QueuedRefs(s.table.tasks, s.table.ready) && s.table.workers <= MAX_WORKERS && CanEnd(s, requeued)
    ensures Quiet(s, EndList(s, requeued))
  {
    O.EndIsSwept(s.table, requeued);
    if Current(s.clock, s.media, s.poll.gen) { SweptIsQuiet(s, EndList(s, requeued)); }
  }

  lemma SettleIsQuiet(s: State)
    requires Joined(s)
    ensures Quiet(s, Settle(s))
  {
  }

  lemma TableIsQuiet(s: State, a: Action, t: State)
    requires O.Inv(s) && Step(s, a, t) && (a.ASweep? || a.AEndList? || a.ATimerEnd? || a.ASettle?)
    ensures Quiet(s, t)
  {
    if a.ATimerEnd? { TimerIsQuiet(s, a.timer); }
    else if a.ASweep? { SweepIsQuiet(s, a.ready); }
    else if a.AEndList? { EndListIsQuiet(s, a.requeued); }
    else if a.ASettle? { SettleIsQuiet(s); }
  }

  ghost predicate ArchivesNothing(s: State, t: State) {
    t.book.log == s.book.log && t.book.ledger.captured == s.book.ledger.captured
  }

  lemma ObservationArchivesNothing(s: State, changed: bool, ok: bool)
    ensures s.poll.Started? ==> ArchivesNothing(s, Guard(s))
    ensures s.poll.Guarded? && s.poll.playlist != [] ==> ArchivesNothing(s, ObserveRoot(s, changed))
    ensures s.poll.Observed? ==> ArchivesNothing(s, QueueRoot(s, ok))
    ensures s.poll.Waiting? ==> ArchivesNothing(s, Wake(s))
    ensures CanGiveUp(s) ==> ArchivesNothing(s, GiveUp(s, ok))
    ensures CanFinishDiscovery(s) ==> ArchivesNothing(s, FinishDiscovery(s))
  {
  }

  lemma BeginArchivesNothing(s: State, playlist: seq<MediaSegment>, endList: bool, gen: nat)
    requires CanBegin(s, playlist)
    ensures ArchivesNothing(s, Begin(s, playlist, endList, gen))
  {
  }

  predicate OfObservation(a: Action) {
    a.AGuard? || a.AObserveRoot? || a.AQueueRoot? || a.AWake? || a.AGiveUp? || a.AFinishDiscovery?
  }

  lemma ObservingArchivesNothing(s: State, a: Action, t: State)
    requires Step(s, a, t) && OfObservation(a)
    ensures ArchivesNothing(s, t)
  {
    if a.AObserveRoot? { ObservationArchivesNothing(s, a.identityChanged, true); }
    else if a.AQueueRoot? { ObservationArchivesNothing(s, true, a.ok); }
    else if a.AGiveUp? { ObservationArchivesNothing(s, true, a.saved); }
    else { ObservationArchivesNothing(s, true, true); }
  }

  /** Only segment commits archive anything. */
  lemma PollerArchivesNothing(s: State, a: Action, t: State)
    requires Step(s, a, t) && !O.OfWorker(a) && !O.OfTable(a)
    ensures ArchivesNothing(s, t)
  {
    if OfObservation(a) { ObservingArchivesNothing(s, a, t); }
    else if a.ABegin? { BeginArchivesNothing(s, a.playlist, a.endList, a.gen); }
  }

  lemma PollerIsQuiet(s: State, a: Action, t: State)
    requires Step(s, a, t) && !O.OfWorker(a) && !O.OfTable(a)
    ensures Quiet(s, t)
  {
    PollerArchivesNothing(s, a, t);
    if O.OfEnvironment(a) { O.EnvironmentTouchesNothing(s, a, t); } else { O.PollerTouchesNothing(s, a, t); }
  }

  lemma CommitIsUnlogged(s: State, j: Job, archived: iset<Key>, first: Uint64)
    requires LogInv(s, archived, first) && CanCommit(s, j) && Live(s.table.tasks, j.ref) && j.ref.key !in s.book.ledger.captured
    ensures forall i | 0 <= i < |s.book.log| :: s.book.log[i].ordinal != j.ref.ordinal && s.book.log[i].key != j.ref.key
  {
    forall i | 0 <= i < |s.book.log| ensures s.book.log[i].key != j.ref.key {
      LoggedKey(s.book.log, i);
    }
    assert j.ref !in s.book.log && Ref(j.ref.key, s.table.tasks[j.ref.key].ordinal) == j.ref;
    assert !Used(s.book.log, j.ref.ordinal);
  }

  lemma CommitLogs(s: State, j: Job, archived: iset<Key>, first: Uint64)
    requires O.Inv(s) && L.BookInv(s) && LogInv(s, archived, first) && CanCommit(s, j)
    ensures LogOk(s.table, JobCommit(s, j).book, archived, first)
  {
    L.CommitIsNew(s, j);
    CommitIsUnlogged(s, j, archived, first);
    LogGrows(s.table, s.book, JobCommit(s, j).book, j.ref, archived, first);
  }

  lemma CommitMeetsTasks(s: State, j: Job, archived: iset<Key>, first: Uint64)
    requires O.Inv(s) && L.BookInv(s) && LogInv(s, archived, first) && CanCommit(s, j)
    ensures LogMeetsTasks(s.table, JobCommit(s, j).book, JobCommit(s, j).pool)
  {
    L.CommitIsNew(s, j);
    L.JobsAfterCommit(s, j);
  }

  /** A commit adds a new object under a new ordinal. */
  lemma CommitExtends(s: State, j: Job, archived: iset<Key>, first: Uint64)
    requires O.Inv(s) && L.BookInv(s) && LogInv(s, archived, first) && CanCommit(s, j)
    ensures LogInv(JobCommit(s, j), archived, first)
  {
    CommitLogs(s, j, archived, first);
    CommitMeetsTasks(s, j, archived, first);
  }

  lemma LogGrows(t: Table, b: Book, c: Book, r: Ref, archived: iset<Key>, first: Uint64)
    requires LogOk(t, b, archived, first) && c.log == b.log + [r] && c.ledger.captured == b.ledger.captured + iset{r.key}
    requires first <= r.ordinal < t.next && r.key !in b.ledger.captured
    requires forall i | 0 <= i < |b.log| :: b.log[i].ordinal != r.ordinal && b.log[i].key != r.key
    ensures LogOk(t, c, archived, first)
  {
    assert (b.log + [r])[..|b.log|] == b.log;
  }

  /** The table changes for at most the key `k`, which may get the next ordinal. */
  ghost predicate AtMostOneNew(t: Table, u: Table, k: Key) {
    && (forall l | l in u.tasks && l != k :: l in t.tasks && u.tasks[l] == t.tasks[l])
    && (k in u.tasks && k in t.tasks ==> u.tasks[k].ordinal == t.tasks[k].ordinal)
    && (if k in u.tasks && k !in t.tasks then u.tasks[k].ordinal == t.next && u.next == t.next + 1 else u.next == t.next)
  }

  lemma AdmitsOne(t: Table, k: Key, gen: nat, u: Table)
    requires TaskTable.Discover(t, k, gen) == Admitted(u)
    ensures AtMostOneNew(t, u, k)
  {
  }

  lemma DiscoverEffect(s: State)
    requires CanDiscover(s)
    ensures var t := DiscoverNext(s);
      && t.book.log == s.book.log && t.book.ledger.captured == s.book.ledger.captured && t.pool.jobs == s.pool.jobs
      && AtMostOneNew(s.table, t.table, KeyInHand(s))
  {
    var o := TaskTable.Discover(s.table, KeyInHand(s), s.poll.gen);
    if o.Admitted? { AdmitsOne(s.table, KeyInHand(s), s.poll.gen, o.table); }
  }

  /** Discovery allocates the next ordinal for a new object. */
  lemma DiscoverExtends(s: State, archived: iset<Key>, first: Uint64)
    requires LogInv(s, archived, first) && first <= s.table.next && CanDiscover(s)
    ensures LogInv(DiscoverNext(s), archived, first) && s.table.next <= DiscoverNext(s).table.next
  {
    DiscoverEffect(s);
    if KeyInHand(s) in s.table.tasks || KeyInHand(s) !in DiscoverNext(s).table.tasks {
      QuietKeeps(s, DiscoverNext(s), archived, first);
    } else {
      NewTaskKeeps(s, DiscoverNext(s), KeyInHand(s), archived, first);
    }
  }

  lemma NewTaskKeeps(s: State, t: State, k: Key, archived: iset<Key>, first: Uint64)
    requires LogInv(s, archived, first) && first <= s.table.next && k in t.table.tasks
    requires t.book.log == s.book.log && t.book.ledger.captured == s.book.ledger.captured && t.pool.jobs == s.pool.jobs
    requires forall l | l in t.table.tasks && l != k :: l in s.table.tasks && t.table.tasks[l] == s.table.tasks[l]
    requires t.table.tasks[k].ordinal == s.table.next && t.table.next == s.table.next + 1
    ensures LogInv(t, archived, first)
  {
  }

  lemma StepKeeps(s: State, a: Action, t: State, archived: iset<Key>, first: Uint64)
    requires O.Inv(s) && L.BookInv(s) && LogInv(s, archived, first) && first <= s.table.next && Step(s, a, t)
    ensures LogInv(t, archived, first) && s.table.next <= t.table.next
  {
    if a.AJobCommit? {
      CommitExtends(s, a.job, archived, first);
    } else if a.ADiscoverNext? {
      DiscoverExtends(s, archived, first);
    } else {
      StepIsQuiet(s, a, t);
      QuietKeeps(s, t, archived, first);
    }
  }

  lemma StepIsQuiet(s: State, a: Action, t: State)
    requires O.Inv(s) && Step(s, a, t) && !a.AJobCommit? && !a.ADiscoverNext?
    ensures Quiet(s, t)
  {
    if L.OfEdit(a) {
      L.WorkerEdits(s, a, t);
      EditsAreQuiet(s, t);
    }
    else if a.ALeave? { LeftQuietly(s, a, t); }
    else if O.OfWorker(a) { WorkerIsQuiet(s, a, t); }
    else if O.OfJob(a) { JobIsQuiet(s, a, t); }
    else if O.OfTable(a) { TableIsQuiet(s, a, t); }
    else { PollerIsQuiet(s, a, t); }
  }

  lemma {:induction false} RunKeepsLog(states: seq<State>, actions: seq<Action>, archived: iset<Key>, first: Uint64, i: nat)
    requires Run(states, actions) && O.Inv(states[0]) && L.BookInv(states[0])
    requires LogInv(states[0], archived, first) && first <= states[0].table.next && i < |states|
    ensures LogInv(states[i], archived, first) && first <= states[i].table.next
  {
    if i > 0 {
      RunKeepsLog(states, actions, archived, first, i - 1);
      O.RunKeepsOwnership(states, actions, i - 1);
      L.RunKeepsBooks(states, actions, i - 1);
      StepKeeps(states[i - 1], actions[i - 1], states[i - 1 + 1], archived, first);
    }
  }

  /** The segments that a log publishes, with their downloaded content. */
  function SegmentsOf(log: seq<Ref>, content: Ref -> Segment): (r: seq<Segment>)
    ensures |r| == |log|
  {
    seq(|log|, i requires 0 <= i < |log| =>
      content(log[i]).(epoch := log[i].key.epoch, sequence := log[i].key.sequence, ordinal := log[i].ordinal))
  }

  /** Everything a lifetime commits is admissible on the track it started from. */
  lemma CommitsAreAdmissible(s: State, base: C.Track, archived: iset<Key>, content: Ref -> Segment)
    requires LogInv(s, archived, base.next)
    requires forall k :: k in archived <==> C.HasKey(base.segments, k.epoch, k.sequence)
    ensures C.Admissible(base, SegmentsOf(s.book.log, content))
  {
    var cs := SegmentsOf(s.book.log, content);
    forall c | c in cs
      ensures base.next <= c.ordinal < MAX_UINT64 && !C.HasKey(base.segments, c.epoch, c.sequence)
    {
      var i :| 0 <= i < |cs| && cs[i] == c;
      assert s.book.log[i].key == Key(c.epoch, c.sequence);
    }
  }

  /** Of every run: whatever order the workers finish in, the lifetime leaves the
      same track, sorted by distinct ordinals, each object once, each epoch opened
      by its marker. */
  lemma LifetimeCommitsInAnyOrder(states: seq<State>, actions: seq<Action>, base: C.Track, archived: iset<Key>,
                                  content: Ref -> Segment, i: nat, order: seq<Segment>)
    requires Run(states, actions) && O.Inv(states[0]) && L.BookInv(states[0]) && i < |states|
    requires LogInv(states[0], archived, base.next) && base.next <= states[0].table.next
    requires forall k :: k in archived <==> C.HasKey(base.segments, k.epoch, k.sequence)
    requires C.Base(base) && C.EpochsMarked(base.segments)
    requires multiset(order) == multiset(SegmentsOf(states[i].book.log, content))
    ensures var t := C.CommitAll(base, order);
      && t == C.CommitAll(base, SegmentsOf(states[i].book.log, content))
      && C.Ordered(t.segments) && C.EpochsMarked(t.segments) && C.Base(t.(markers := map[]))
  {
    RunKeepsLog(states, actions, archived, base.next, i);
    var cs := SegmentsOf(states[i].book.log, content);
    CommitsAreAdmissible(states[i], base, archived, content);
    C.CommitOrderIrrelevant(base, cs, order);
    C.LifetimeEnds(base, cs);
  }
}
