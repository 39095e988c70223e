/** The books of a recording. Every sequence of every observed range is archived,
    covered by a gap, pending, held by a task, offered by the playlist in hand, or
    known to have been dropped; at the end of a recording nothing is pending. */
module NoLoss {
  import opened Archive
  import opened TaskTable
  import opened Acquisition
  import A = Accounting
  import O = Ownership

  /** The root or the table remembers `k`, or the run knows that it dropped it. */
  ghost predicate Kept(s: State, k: Key) {
    Recorded(s.book.ledger, k) || k in s.table.tasks || k in s.book.dropped
  }

  ghost predicate Known(s: State, k: Key) {
    Kept(s, k) || Undiscovered(s.poll, k)
  }

  predicate InRange(ranges: map<Uint64, Range>, k: Key) {
    k.epoch in ranges && ranges[k.epoch].lo <= k.sequence <= ranges[k.epoch].hi
  }

  ghost predicate RangesOk(b: Book) {
    && (b.ledger.hasLast <==> b.ledger.epoch in b.ranges)
    && (b.ledger.hasLast ==> b.ranges[b.ledger.epoch].hi == b.ledger.last)
    && (forall e | e in b.ranges :: e <= b.ledger.epoch && b.ranges[e].lo <= b.ranges[e].hi)
  }

  /** The playlist in hand is a parsed one, and discovery works on the current epoch. */
  ghost predicate PollOk(s: State) {
    match s.poll
    case Started(playlist, _, _) => playlist != [] && A.Consecutive(playlist)
    case Guarded(playlist, _, _, protected) =>
      && playlist != [] && A.Consecutive(playlist)
      && (forall k | k in s.table.tasks :: k in protected) && (forall k | k in protected :: Kept(s, k))
    case Observed(epoch, playlist, _, _) => playlist != [] && epoch == s.book.ledger.epoch
    case Sweeping(epoch, playlist, _, _) => playlist != [] && epoch == s.book.ledger.epoch
    case Discovering(epoch, _, _, _, _) => epoch == s.book.ledger.epoch
    case Waiting(epoch, _, _, _, _) => epoch == s.book.ledger.epoch
    case Publishing(_) => Drained(s)
    case _ => true
  }

  /** Archive and gaps never claim the same object, and work in progress is
      claimed by neither. */
  ghost predicate Separate(s: State) {
    && (forall k | k in s.book.ledger.captured :: k !in s.book.ledger.gapped)
    && (forall k | k in s.table.tasks && s.table.tasks[k].phase != GapCommitting :: k !in s.book.ledger.gapped)
    && (forall k | k in s.table.tasks && k in s.book.ledger.captured :: Job(Ref(k, s.table.tasks[k].ordinal), true) in s.pool.jobs)
  }

  /** What finished holders have already written to the root. */
  ghost predicate MarksOk(s: State) {
    && (forall j | j in s.pool.jobs && j.committed :: j.ref.key in s.book.ledger.captured)
    && (forall g | g in s.pool.gappers && g.marked :: g.ref.key in s.book.ledger.captured || g.ref.key in s.book.ledger.gapped)
    && (forall w | w in s.pool.crew && w.Busy? && w.stage == Stage.Gap(true) ::
          w.ref.key in s.book.ledger.captured || w.ref.key in s.book.ledger.gapped)
  }

  /** A finished recording has nothing pending and nothing in progress. */
  ghost predicate FinishedOk(s: State) {
    s.book.root != Recording ==> s.table.tasks == map[] && s.book.ledger.pending == iset{} && s.poll == Rest
  }

  ghost predicate NothingLost(s: State) {
    forall k | InRange(s.book.ranges, k) :: Known(s, k)
  }

  ghost predicate BookInv(s: State) {
    NothingLost(s) && RangesOk(s.book) && PollOk(s) && Separate(s) && MarksOk(s) && FinishedOk(s)
  }

  // Steps that only edit tasks ---------------------------------------------------------------

  /** Markers of finished work: none appears on the way from `s` to `t`. */
  ghost predicate NoNewMarks(s: State, t: State) {
    && (forall j | j in t.pool.jobs && j.committed :: j in s.pool.jobs)
    && (forall g | g in t.pool.gappers && g.marked :: g in s.pool.gappers)
    && (forall w | w in t.pool.crew && w.Busy? && w.stage == Stage.Gap(true) :: w in s.pool.crew)
  }

  ghost predicate SameKeys(s: State, t: State) {
    && t.table.tasks.Keys == s.table.tasks.Keys && t.table.next == s.table.next
    && forall k | k in s.table.tasks ::
         && t.table.tasks[k].ordinal == s.table.tasks[k].ordinal
         && (t.table.tasks[k].phase != GapCommitting ==> s.table.tasks[k].phase != GapCommitting)
  }

  ghost predicate Edits(s: State, t: State) {
    && t.book == s.book && t.poll == s.poll && t.snapshots == s.snapshots && t.metadata == s.metadata
    && SameKeys(s, t) && NoNewMarks(s, t) && forall r :: Job(r, true) in s.pool.jobs ==> Job(r, true) in t.pool.jobs
  }

  lemma EditsKeep(s: State, t: State)
    requires BookInv(s) && Edits(s, t)
    ensures BookInv(t)
  {
    assert forall k :: Known(s, k) ==> Known(t, k);
    assert Drained(s) ==> Drained(t) by { if Drained(s) { assert t.table.tasks.Keys == {}; } }
    assert s.table.tasks == map[] ==> t.table.tasks == map[];
  }

  lemma SwapMarks(crew: multiset<Worker>, w: Worker, v: Worker)
    requires w in crew && (v.Busy? ==> v.stage != Stage.Gap(true))
    ensures forall x: Worker | x in Swap(crew, w, v) && x.Busy? && x.stage == Stage.Gap(true) :: x in crew
  {
    O.SwapCounts(crew, w, v);
  }

  lemma TakeEdits(s: State, w: Worker)
    requires O.Inv(s) && CanTake(s, w)
    ensures Edits(s, Take(s, w))
  {
    O.TakeTable(s.table);
    SwapMarks(s.pool.crew, w, Busy(w.burst, s.table.ready[0], Gate));
    assert Take(s, w).table.tasks.Keys == s.table.tasks.Keys;
  }

  lemma ExitEdits(s: State, w: Worker)
    requires CanExit(s, w)
    ensures Edits(s, Exit(s, w))
  {
  }

  /** One worker moves and edits one task. */
  lemma OneTask(s: State, t: State, k: Key, w: Worker, v: Worker)
    requires t.book == s.book && t.poll == s.poll && t.snapshots == s.snapshots && t.metadata == s.metadata
    requires k in s.table.tasks && k in t.table.tasks && t.table.tasks == s.table.tasks[k := t.table.tasks[k]]
    requires t.table.tasks[k].ordinal == s.table.tasks[k].ordinal && t.table.next == s.table.next
    requires t.table.tasks[k].phase != GapCommitting ==> s.table.tasks[k].phase != GapCommitting
    requires w in s.pool.crew && (v.Busy? ==> v.stage != Stage.Gap(true))
    requires forall x: Worker | x.Busy? :: t.pool.crew[x] == Swap(s.pool.crew, w, v)[x]
    requires forall j: Job | j.committed :: t.pool.jobs[j] == s.pool.jobs[j]
    requires t.pool.gappers == s.pool.gappers
    ensures Edits(s, t)
  {
    SwapMarks(s.pool.crew, w, v);
    assert t.table.tasks.Keys == s.table.tasks.Keys;
    forall x | x in t.pool.crew && x.Busy? && x.stage == Stage.Gap(true) ensures x in s.pool.crew {
      assert x in Swap(s.pool.crew, w, v);
    }
  }

  lemma EnterEdits(s: State, w: Worker)
    requires CanEnter(s, w)
    ensures Edits(s, Enter(s, w))
  {
    var t := Enter(s, w);
    assert t.table.tasks == s.table.tasks[w.ref.key := t.table.tasks[w.ref.key]];
    if Outdated(s.table.tasks[w.ref.key], s.media) {
      OneTask(s, t, w.ref.key, w, w.(stage := Leaving(AwaitsManifest)));
    } else {
      OneTask(s, t, w.ref.key, w, w.(stage := Fetch(s.media, s.table.tasks[w.ref.key].cycles)));
    }
  }

  lemma RefreshEdits(s: State, w: Worker, gen: nat)
    requires CanRefresh(s, w, gen)
    ensures Edits(s, RefreshEnd(s, w, gen))
  {
    SwapMarks(s.pool.crew, w, w.(stage := Leaving(AwaitsManifest)));
  }

  lemma RefreshFailEdits(s: State, w: Worker)
    requires CanRefreshFail(s, w)
    ensures Edits(s, RefreshFail(s, w))
  {
    SwapMarks(s.pool.crew, w, w.(stage := Leaving(RefreshExhausted)));
  }

  /** `To` with an edited task, as a step. */
  lemma ToEdits(s: State, w: Worker, stage: Stage, after: Task)
    requires w in s.pool.crew && w.Busy? && w.ref.key in s.table.tasks && stage != Stage.Gap(true)
    requires after.ordinal == s.table.tasks[w.ref.key].ordinal
    requires after.phase != GapCommitting ==> s.table.tasks[w.ref.key].phase != GapCommitting
    ensures Edits(s, To(PutTask(s, w.ref.key, after), w, stage)) && Edits(s, To(s, w, stage))
  {
    OneTask(s, To(PutTask(s, w.ref.key, after), w, stage), w.ref.key, w, w.(stage := stage));
    SwapMarks(s.pool.crew, w, w.(stage := stage));
  }

  lemma FetchEdits(s: State, w: Worker, result: Fetched)
    requires CanFetch(s, w, result) && result != IngestClosed && s.table.tasks[w.ref.key].phase == InFlight
    ensures Edits(s, FetchEnd(s, w, result))
  {
    var task := s.table.tasks[w.ref.key];
    if result == Complete { ToEdits(s, w, Submit, task.(phase := Buffered)); }
    else if result == Stale { ToEdits(s, w, Leaving(AwaitsManifest), AwaitGeneration(task, s.media)); }
    else if result == Refused { RefusedEdits(s, w); }
    else { ToEdits(s, w, Leaving(if result == Broken then FetchFailed else if result == Aborted then Cancelled else OtherFailure), task); }
  }

  lemma RefusedEdits(s: State, w: Worker)
    requires CanFetch(s, w, Refused) && s.table.tasks[w.ref.key].phase == InFlight
    ensures Edits(s, FetchEnd(s, w, Refused))
  {
    var task := s.table.tasks[w.ref.key];
    if w.stage.cycles >= MAX_REFRESH_CYCLES { ToEdits(s, w, Leaving(RefreshExhausted), task); }
    else if s.table.closed { ToEdits(s, w, Leaving(AwaitsManifest), task); }
    else { ToEdits(s, w, Refresh(w.stage.gen), task.(phase := Refreshing, awaiting := false)); }
  }

  lemma SubmitEdits(s: State, w: Worker, result: Admitted)
    requires CanSubmit(s, w) && result != Closed
    ensures Edits(s, SubmitEnd(s, w, result))
  {
    var k, task := w.ref.key, s.table.tasks[w.ref.key];
    assert s.table.tasks == s.table.tasks[k := task];
    if result == Accepted {
      OneTask(s, SubmitEnd(s, w, result), k, w, w.(stage := Submitted));
    } else {
      OneTask(s, SubmitEnd(s, w, result), k, w, w.(stage := Leaving(if s.canceled then Cancelled else StorageFailed)));
    }
  }

  lemma PersistingEdits(s: State, w: Worker)
    requires At(s, w, Submitted) && (Live(s.table.tasks, w.ref) ==> s.table.tasks[w.ref.key].phase == Buffered)
    ensures Edits(s, MarkPersisting(s, w))
  {
    var t := MarkPersisting(s, w);
    if Live(s.table.tasks, w.ref) {
      assert t.table.tasks == s.table.tasks[w.ref.key := t.table.tasks[w.ref.key]];
      OneTask(s, t, w.ref.key, w, w.(stage := Leaving(PersistQueued)));
    } else {
      SwapMarks(s.pool.crew, w, w.(stage := Leaving(PersistQueued)));
    }
  }

  lemma AwaitEdits(s: State, w: Worker)
    requires At(s, w, Awaiting) && Live(s.table.tasks, w.ref) && s.table.tasks[w.ref.key].phase != GapCommitting
    ensures Edits(s, Await(s, w))
  {
    if Refreshed(s.table.tasks[w.ref.key]) { RequeueEdits(s, w); } else { AwaitOnEdits(s, w); }
  }

  /** Installing a table and freeing a worker. */
  lemma EnlistFree(s: State, u: Table, w: Worker)
    requires w in s.pool.crew
    ensures var t := Free(Enlist(s, u), w);
      && t == s.(table := u, pool := t.pool) && t.pool == s.pool.(crew := t.pool.crew)
      && forall x: Worker | x.Busy? :: t.pool.crew[x] == Swap(s.pool.crew, w, Idle(w.burst))[x]
  {
    O.SpawnAfterSwap(s.pool.crew, w);
  }

  lemma RequeueIs(s: State, w: Worker)
    requires At(s, w, Awaiting) && Live(s.table.tasks, w.ref) && Refreshed(s.table.tasks[w.ref.key])
    ensures exists clock :: Await(s, w) == Free(Enlist(s.(clock := clock), Enqueue(s.table, w.ref.key, s.table.tasks[w.ref.key])), w)
  {
    var clock := if s.media > s.clock.latest then TaskTable.Note(s.clock, s.media) else s.clock;
    assert Await(s, w) == Free(Enlist(s.(clock := clock), Enqueue(s.table, w.ref.key, s.table.tasks[w.ref.key])), w);
  }

  lemma RequeueEdits(s: State, w: Worker)
    requires At(s, w, Awaiting) && Live(s.table.tasks, w.ref) && Refreshed(s.table.tasks[w.ref.key])
    requires s.table.tasks[w.ref.key].phase != GapCommitting
    ensures Edits(s, Await(s, w))
  {
    RequeueIs(s, w);
    var u := Enqueue(s.table, w.ref.key, s.table.tasks[w.ref.key]);
    var clock :| Await(s, w) == Free(Enlist(s.(clock := clock), u), w);
    EnlistFree(s.(clock := clock), u, w);
    assert u.tasks == s.table.tasks[w.ref.key := u.tasks[w.ref.key]];
    OneTask(s, Await(s, w), w.ref.key, w, Idle(w.burst));
  }

  lemma AwaitOnEdits(s: State, w: Worker)
    requires At(s, w, Awaiting) && Live(s.table.tasks, w.ref) && !Refreshed(s.table.tasks[w.ref.key])
    requires s.table.tasks[w.ref.key].phase != GapCommitting
    ensures Edits(s, Await(s, w))
  {
    var t, k := Await(s, w), w.ref.key;
    O.AwaitOnIs(s, w);
    assert t.table.tasks == s.table.tasks[k := t.table.tasks[k]];
    if t.table.tasks[k].phase == GapCommitting {
      OneTask(s, t, k, w, w.(stage := Stage.Gap(false)));
    } else {
      OneTask(s, t, k, w, Idle(w.burst));
    }
  }

  lemma JobFailEdits(s: State, j: Job)
    requires CanCommit(s, j)
    ensures Edits(s, JobFail(s, j))
  {
  }

  lemma TimerEdits(s: State, m: Timer)
    requires m in s.pool.timers
    requires Live(s.table.tasks, m.ref) && s.table.tasks[m.ref.key].token == m.token ==> s.table.tasks[m.ref.key].phase == RetryWait
    ensures Edits(s, TimerEnd(s, m))
  {
    assert TimerEnd(s, m).table.tasks.Keys == s.table.tasks.Keys;
  }

  // Steps that write the root ------------------------------------------------------------

  lemma PendingKeeps(s: State, k: Key)
    requires BookInv(s) && k in s.table.tasks
    ensures BookInv(WithLedger(s, A.MarkPending(s.book.ledger, k)))
  {
    var t := WithLedger(s, A.MarkPending(s.book.ledger, k));
    assert forall l :: Kept(s, l) ==> Kept(t, l);
  }

  lemma GapKeeps(s: State, k: Key)
    requires BookInv(s) && k in s.table.tasks && s.table.tasks[k].phase == GapCommitting
    ensures var t := WithLedger(s, A.MarkGap(s.book.ledger, k));
      BookInv(t) && (k in t.book.ledger.captured || k in t.book.ledger.gapped)
  {
    var t := WithLedger(s, A.MarkGap(s.book.ledger, k));
    assert forall l :: Kept(s, l) ==> Kept(t, l);
  }

  /** Nothing is archived twice, and nothing that became a gap is archived. */
  lemma CommitIsNew(s: State, j: Job)
    requires O.Inv(s) && Separate(s) && CanCommit(s, j)
    ensures Live(s.table.tasks, j.ref) && s.table.tasks[j.ref.key].phase != GapCommitting && Job(j.ref, true) !in s.pool.jobs
    ensures j.ref.key !in s.book.ledger.captured && j.ref.key !in s.book.ledger.gapped
  {
    assert O.Exclusive(s.table, s.pool, j.ref.key);
  }

  lemma JobsAfterCommit(s: State, j: Job)
    requires CanCommit(s, j)
    ensures var t := JobCommit(s, j);
      && Job(j.ref, true) in t.pool.jobs
      && (forall i | i in t.pool.jobs && i.committed :: i == Job(j.ref, true) || i in s.pool.jobs)
      && (forall r: Ref | Job(r, true) in s.pool.jobs :: Job(r, true) in t.pool.jobs)
  {
  }

  /** The root shows a segment. */
  lemma CommitKeeps(s: State, j: Job)
    requires O.Inv(s) && BookInv(s) && CanCommit(s, j)
    ensures BookInv(JobCommit(s, j))
  {
    CommitIsNew(s, j);
    JobsAfterCommit(s, j);
    var t := JobCommit(s, j);
    assert forall l :: Kept(s, l) ==> Kept(t, l);
    assert Ref(j.ref.key, s.table.tasks[j.ref.key].ordinal) == j.ref;
  }

  /** A task goes once the root accounts for its object. */
  lemma DropKeeps(s: State, r: Ref)
    requires BookInv(s)
    requires Live(s.table.tasks, r) ==> r.key in s.book.ledger.captured || r.key in s.book.ledger.gapped || r.key in s.book.dropped
    ensures BookInv(DropTask(s, r))
  {
    var t := DropTask(s, r);
    assert forall l :: Kept(s, l) ==> Kept(t, l);
  }

  lemma LoseKeeps(s: State, r: Ref)
    requires BookInv(s)
    ensures BookInv(Lose(s, r))
  {
    var t := Lose(s, r);
    assert forall l :: Known(s, l) ==> Known(t, l);
    assert forall l :: (forall k :: !Undiscovered(s.poll, k)) && Kept(s, l) ==> Kept(t, l);
  }

  lemma AbandonKeeps(s: State)
    requires BookInv(s)
    ensures BookInv(Abandon(s))
  {
    var t := Abandon(s);
    assert forall l :: Known(s, l) ==> Kept(t, l);
  }

  /** Only the pool, the clocks and the flags differ. */
  ghost predicate SameBook(s: State, t: State) {
    t.book == s.book && t.poll == s.poll && t.snapshots == s.snapshots && t.metadata == s.metadata && t.table.tasks == s.table.tasks
  }

  lemma PoolKeeps(s: State, t: State)
    requires BookInv(s) && SameBook(s, t) && NoNewMarks(s, t)
    requires forall k | k in s.table.tasks && Job(Ref(k, s.table.tasks[k].ordinal), true) in s.pool.jobs ::
      Job(Ref(k, s.table.tasks[k].ordinal), true) in t.pool.jobs
    ensures BookInv(t)
  {
    assert forall k :: Known(s, k) ==> Known(t, k);
  }

  lemma MoveKeeps(s: State, t: State, w: Worker, v: Worker)
    requires BookInv(s) && SameBook(s, t) && t.pool == s.pool.(crew := Swap(s.pool.crew, w, v)) && w in s.pool.crew
    requires v.Busy? && v.stage == Stage.Gap(true) ==> v.ref.key in s.book.ledger.captured || v.ref.key in s.book.ledger.gapped
    ensures BookInv(t)
  {
    O.SwapCounts(s.pool.crew, w, v);
    assert forall x | x in t.pool.crew && x != v :: x in s.pool.crew;
    assert forall k :: Known(s, k) ==> Known(t, k);
  }

  // Worker steps --------------------------------------------------------------------------

  lemma FetchKeeps(s: State, w: Worker, result: Fetched)
    requires O.Inv(s) && BookInv(s) && CanFetch(s, w, result)
    ensures BookInv(FetchEnd(s, w, result))
  {
    if result == IngestClosed {
      LoseKeeps(s, w.ref);
      MoveKeeps(Lose(s, w.ref), FetchEnd(s, w, result), w, w.(stage := Leaving(Removed)));
    } else {
      O.OwnerTask(s.table, s.pool, w, !s.canceled);
      FetchEdits(s, w, result);
      EditsKeep(s, FetchEnd(s, w, result));
    }
  }

  lemma SubmitKeeps(s: State, w: Worker, result: Admitted)
    requires BookInv(s) && CanSubmit(s, w)
    ensures BookInv(SubmitEnd(s, w, result))
  {
    if result == Closed {
      LoseKeeps(s, w.ref);
      MoveKeeps(Lose(s, w.ref), SubmitEnd(s, w, result), w, w.(stage := Leaving(Removed)));
    } else {
      SubmitEdits(s, w, result);
      EditsKeep(s, SubmitEnd(s, w, result));
    }
  }

  lemma GapMarkKeeps(s: State, w: Worker, saved: bool)
    requires O.Inv(s) && BookInv(s) && At(s, w, Stage.Gap(false))
    ensures BookInv(GapMark(s, w, saved))
  {
    O.OwnerTask(s.table, s.pool, w, !s.canceled);
    if saved {
      GapKeeps(s, w.ref.key);
      MoveKeeps(WithLedger(s, A.MarkGap(s.book.ledger, w.ref.key)), GapMark(s, w, saved), w, w.(stage := Stage.Gap(true)));
    } else {
      MoveKeeps(s, GapMark(s, w, saved), w, Idle(w.burst));
    }
  }

  lemma GapDoneKeeps(s: State, w: Worker)
    requires BookInv(s) && At(s, w, Stage.Gap(true))
    ensures BookInv(GapDone(s, w))
  {
    DropKeeps(s, w.ref);
    MoveKeeps(DropTask(s, w.ref), GapDone(s, w), w, Idle(w.burst));
  }

  lemma JobDoneKeeps(s: State, j: Job)
    requires BookInv(s) && CanFinish(s, j)
    ensures BookInv(JobDone(s, j))
  {
    DropKeeps(s, j.ref);
    PoolKeeps(DropTask(s, j.ref), JobDone(s, j));
  }

  lemma GapperDoneKeeps(s: State, g: Gapper)
    requires BookInv(s) && g in s.pool.gappers && g.marked
    ensures BookInv(GapperDone(s, g))
  {
    DropKeeps(s, g.ref);
    PoolKeeps(DropTask(s, g.ref), GapperDone(s, g));
  }

  lemma GappersMarked(s: State, t: State, g: Gapper)
    requires BookInv(s) && SameBook(s, t) && g in s.pool.gappers
    requires t.pool == s.pool.(gappers := s.pool.gappers - multiset{g} + multiset{Gapper(g.ref, true)})
    requires g.ref.key in s.book.ledger.captured || g.ref.key in s.book.ledger.gapped
    ensures BookInv(t)
  {
    assert forall h | h in t.pool.gappers :: h == Gapper(g.ref, true) || h in s.pool.gappers;
    assert forall k :: Known(s, k) ==> Known(t, k);
  }

  lemma GapperMarkKeeps(s: State, g: Gapper, saved: bool)
    requires O.Inv(s) && BookInv(s) && g in s.pool.gappers && !g.marked
    ensures BookInv(GapperMark(s, g, saved))
  {
    if saved {
      assert O.Exclusive(s.table, s.pool, g.ref.key);
      GapKeeps(s, g.ref.key);
      GappersMarked(WithLedger(s, A.MarkGap(s.book.ledger, g.ref.key)), GapperMark(s, g, saved), g);
    } else {
      GapperFailKeeps(s, g);
    }
  }

  lemma GapperFailKeeps(s: State, g: Gapper)
    requires BookInv(s) && g in s.pool.gappers && !g.marked
    ensures BookInv(GapperMark(s, g, false))
  {
    var p := s.(pool := s.pool.(gappers := multiset{}));
    PoolKeeps(s, p);
    AbandonKeeps(p);
    PoolKeeps(Abandon(p), Halt(Abandon(p)));
    assert GapperMark(s, g, false) == Halt(Abandon(p));
  }

  lemma RetireKeeps(s: State, t: State, w: Worker)
    requires BookInv(s) && SameBook(s, t) && t.pool == s.pool.(crew := s.pool.crew - multiset{w})
    ensures BookInv(t)
  {
    PoolKeeps(s, t);
  }

  /** A failed fetch: the object becomes pending, then waits or becomes a gap. */
  lemma LeaveFailedKeeps(s: State, w: Worker, saved: bool)
    requires BookInv(s) && w in s.pool.crew && w.Busy? && Live(s.table.tasks, w.ref) && s.table.tasks[w.ref.key].phase == InFlight
    ensures BookInv(LeaveFailed(s, w, saved))
  {
    if !s.table.tasks[w.ref.key].available {
      var after := s.table.tasks[w.ref.key].(phase := GapCommitting);
      ToEdits(s, w, Stage.Gap(false), after);
      EditsKeep(s, To(PutTask(s, w.ref.key, after), w, Stage.Gap(false)));
      assert LeaveFailed(s, w, saved) == To(PutTask(s, w.ref.key, after), w, Stage.Gap(false));
    } else if !saved {
      RetireKeeps(s, Halt(Retire(s, w)), w);
      assert LeaveFailed(s, w, saved) == Halt(Retire(s, w));
    } else {
      LeavePendingKeeps(s, w);
    }
  }

  lemma LeavePendingKeeps(s: State, w: Worker)
    requires BookInv(s) && w in s.pool.crew && w.Busy? && Live(s.table.tasks, w.ref) && s.table.tasks[w.ref.key].phase == InFlight
    requires s.table.tasks[w.ref.key].available
    ensures BookInv(LeaveFailed(s, w, true))
  {
    PendingKeeps(s, w.ref.key);
    var p, after := WithLedger(s, A.MarkPending(s.book.ledger, w.ref.key)), AfterFailure(s.table.tasks[w.ref.key], s.clock.ending);
    PendingThenKeeps(p, w, after, LeaveFailed(s, w, true));
  }

  lemma PendingThenKeeps(p: State, w: Worker, after: Task, t: State)
    requires BookInv(p) && w in p.pool.crew && w.Busy? && w.ref.key in p.table.tasks && p.table.tasks[w.ref.key].phase != GapCommitting
    requires after.ordinal == p.table.tasks[w.ref.key].ordinal
    requires t.book == p.book && t.poll == p.poll && t.snapshots == p.snapshots && t.metadata == p.metadata
    requires t.table.tasks == p.table.tasks[w.ref.key := after] && t.table.next == p.table.next && t.pool.jobs == p.pool.jobs && t.pool.gappers == p.pool.gappers
    requires t.pool.crew == Swap(p.pool.crew, w, w.(stage := Stage.Gap(false))) || t.pool.crew == Swap(p.pool.crew, w, Idle(w.burst))
    ensures BookInv(t)
  {
    OneTask(p, t, w.ref.key, w, if t.pool.crew == Swap(p.pool.crew, w, Idle(w.burst)) then Idle(w.burst) else w.(stage := Stage.Gap(false)));
    EditsKeep(p, t);
  }

  /** The ways out of `acquire`. */
  lemma LeaveCases(s: State, w: Worker, saved: bool)
    requires CanLeave(s, w) && (Live(s.table.tasks, w.ref) ==> w.stage.outcome != Removed)
    ensures var t, b := Leave(s, w, saved), s.(table := s.table.(busy := s.table.busy - 1));
      || t == Free(b, w) || t == Halt(Free(b, w)) || t == Halt(Retire(b, w)) || t == To(b, w, Awaiting)
      || (t == LeaveFailed(b, w, saved) && w.stage.outcome == FetchFailed && Live(s.table.tasks, w.ref))
  {
  }

  lemma LeaveKeeps(s: State, w: Worker, saved: bool)
    requires BookInv(s) && CanLeave(s, w)
    requires Live(s.table.tasks, w.ref) ==> O.Fits(w.stage, s.table.tasks[w.ref.key].phase)
    ensures BookInv(Leave(s, w, saved))
  {
    var t, b := Leave(s, w, saved), s.(table := s.table.(busy := s.table.busy - 1));
    LeaveCases(s, w, saved);
    if t == Halt(Retire(b, w)) {
      RetireKeeps(s, t, w);
    } else if Live(s.table.tasks, w.ref) && w.stage.outcome == FetchFailed && t == LeaveFailed(b, w, saved) {
      PoolKeeps(s, b);
      LeaveFailedKeeps(b, w, saved);
    } else {
      MoveKeeps(s, t, w, if t == To(b, w, Awaiting) then w.(stage := Awaiting) else Idle(w.burst));
    }
  }

  // Sweeps -----------------------------------------------------------------------------------

  /** The poller moves on without forgetting anything. */
  lemma PollKeeps(s: State, t: State)
    requires BookInv(s) && t == s.(poll := t.poll, clock := t.clock, metadata := t.metadata)
    requires forall k | Undiscovered(s.poll, k) :: Undiscovered(t.poll, k) || Kept(s, k)
    requires PollOk(t) && FinishedOk(t)
    ensures BookInv(t)
  {
    assert forall k :: Known(s, k) ==> Known(t, k);
  }

  lemma SweptEdits(s: State, t: State)
    requires t.book == s.book && t.poll == s.poll && t.snapshots == s.snapshots && t.metadata == s.metadata
    requires O.SweptTasks(s.table, t.table) && t.pool.jobs == s.pool.jobs
    requires forall x: Worker | x.Busy? :: t.pool.crew[x] == s.pool.crew[x]
    requires t.pool.gappers == s.pool.gappers + GappersOf(Expired(s.table.tasks, t.table.tasks))
    ensures Edits(s, t)
  {
    forall g | g in t.pool.gappers && g.marked ensures g in s.pool.gappers {
      O.GappersOfCounts(Expired(s.table.tasks, t.table.tasks), g);
    }
    forall k | k in s.table.tasks ensures O.SweptTo(s.table.tasks[k], t.table.tasks[k]) {}
  }

  lemma SweepKeeps(s: State, ready: seq<Ref>)
    requires O.TasksOk(s.table) && QueuedRefs(s.table.tasks, s.table.ready) && BookInv(s) && CanSweep(s, ready)
    ensures BookInv(Acquisition.Sweep(s, ready))
  {
    var t := Acquisition.Sweep(s, ready);
    if !Current(s.clock, s.media, s.poll.gen) {
      AbandonKeeps(s);
    } else {
      O.SweepIsSwept(s.table, s.poll.epoch, s.poll.playlist, ready);
      SweptThenKeeps(s, t);
    }
  }

  lemma SweptThenKeeps(s: State, t: State)
    requires BookInv(s) && t.book == s.book && t.snapshots == s.snapshots && t.metadata == s.metadata
    requires O.SweptTasks(s.table, t.table) && t.pool.jobs == s.pool.jobs
    requires forall x: Worker | x.Busy? :: t.pool.crew[x] == s.pool.crew[x]
    requires t.pool.gappers == s.pool.gappers + GappersOf(Expired(s.table.tasks, t.table.tasks))
    requires forall k | Undiscovered(s.poll, k) :: Undiscovered(t.poll, k)
    requires PollOk(t) && s.book.root == Recording
    ensures BookInv(t)
  {
    var m := t.(poll := s.poll);
    SweptEdits(s, m);
    EditsKeep(s, m);
    PollKeeps(m, t);
  }

  lemma EndListKeeps(s: State, requeued: seq<Ref>)
    requires O.TasksOk(s.table) && QueuedRefs(s.table.tasks, s.table.ready) && s.table.workers <= MAX_WORKERS
    requires BookInv(s) && CanEnd(s, requeued)
    ensures BookInv(EndList(s, requeued))
  {
    var t := EndList(s, requeued);
    if !Current(s.clock, s.media, s.poll.gen) {
      PollKeeps(s, t);
    } else {
      O.EndIsSwept(s.table, requeued);
      SweptThenKeeps(s, t);
    }
  }

  // Discovery --------------------------------------------------------------------------------

  lemma OfferedNext(playlist: seq<MediaSegment>, index: nat, q: Uint64)
    requires index < |playlist| && OfferedFrom(playlist, index, q)
    ensures OfferedFrom(playlist, index + 1, q) || (!playlist[index].gap && playlist[index].sequence == q)
  {
    var i :| index <= i < |playlist| && !playlist[i].gap && playlist[i].sequence == q;
  }

  /** The entry in hand needs nothing, or the table now has a task for it. */
  lemma EntryDone(s: State, t: State)
    requires BookInv(s) && s.poll.Discovering? && s.poll.index < |s.poll.playlist|
    requires t == s.(poll := s.poll.(index := s.poll.index + 1), clock := t.clock)
    requires s.poll.playlist[s.poll.index].gap || Kept(s, KeyInHand(s))
    ensures BookInv(t)
  {
    forall k | Undiscovered(s.poll, k) ensures Undiscovered(t.poll, k) || Kept(s, k) {
      OfferedNext(s.poll.playlist, s.poll.index, k.sequence);
    }
    PollKeeps(s, t);
  }

  /** A new or known task for an object that is neither archived nor a gap. */
  lemma AdmittedKeeps(s: State, k: Key, gen: nat, u: Table)
    requires BookInv(s) && !Settled(s.book.ledger, k) && TaskTable.Discover(s.table, k, gen) == Admitted(u)
    requires s.book.root == Recording && s.poll.Discovering?
    ensures BookInv(Enlist(s, u)) && k in u.tasks
  {
    var t := Enlist(s, u);
    assert forall l | l != k :: (l in u.tasks <==> l in s.table.tasks) && (l in u.tasks ==> u.tasks[l] == s.table.tasks[l]);
    assert forall l :: Known(s, l) ==> Known(t, l);
    assert forall w: Worker | w in t.pool.crew && w.Busy? :: w in s.pool.crew;
  }

  /** The offer of the rest of a playlist. */
  lemma OfferedRest(playlist: seq<MediaSegment>, at: nat, q: Uint64)
    requires at <= |playlist|
    ensures OfferedFrom(playlist, at, q) <==> exists i | 0 <= i < |playlist[at..]| :: !playlist[at..][i].gap && playlist[at..][i].sequence == q
  {
    if OfferedFrom(playlist, at, q) {
      var i :| at <= i < |playlist| && !playlist[i].gap && playlist[i].sequence == q;
      assert playlist[at..][i - at] == playlist[i];
    }
  }

  lemma GiveUpKeeps(s: State, saved: bool)
    requires BookInv(s) && CanGiveUp(s)
    ensures BookInv(GiveUp(s, saved))
  {
    if saved {
      var t := GiveUp(s, saved);
      forall k | Undiscovered(s.poll, k) ensures Kept(t, k) {
        OfferedRest(s.poll.playlist, s.poll.at, k.sequence);
      }
      assert forall k :: Known(s, k) ==> Known(t, k);
    } else {
      HaltKeeps(s);
    }
  }

  lemma DiscoverKeeps(s: State)
    requires BookInv(s) && CanDiscover(s)
    ensures BookInv(DiscoverNext(s))
  {
    var p, k := s.poll, KeyInHand(s);
    var c := s.(clock := Checked(s.clock, s.media, p.gen));
    PoolKeeps(s, c);
    if !Current(s.clock, s.media, p.gen) {
      AbandonKeeps(s);
    } else if p.playlist[p.index].gap || Settled(s.book.ledger, k) {
      EntryDone(s, DiscoverNext(s));
    } else if s.table.closed {
      AbandonKeeps(c);
    } else {
      DiscoverTaskKeeps(s, c);
    }
  }

  lemma HaltKeeps(s: State)
    requires BookInv(s)
    ensures BookInv(Halt(Abandon(s)))
  {
    AbandonKeeps(s);
    PoolKeeps(Abandon(s), Halt(Abandon(s)));
  }

  lemma DiscoverTaskKeeps(s: State, c: State)
    requires CanDiscover(s) && Current(s.clock, s.media, s.poll.gen) && !s.table.closed
    requires !s.poll.playlist[s.poll.index].gap && !Settled(s.book.ledger, KeyInHand(s))
    requires c == s.(clock := Checked(s.clock, s.media, s.poll.gen)) && BookInv(c)
    ensures BookInv(DiscoverNext(s))
  {
    match TaskTable.Discover(s.table, KeyInHand(s), s.poll.gen)
    case Full => PollKeeps(c, DiscoverNext(s));
    case OrdinalOverflow => HaltKeeps(c);
    case Admitted(u) => AdmittedThenKeeps(c, u);
  }

  lemma AdmittedThenKeeps(s: State, u: Table)
    requires BookInv(s) && s.poll.Discovering? && s.poll.index < |s.poll.playlist|
    requires !Settled(s.book.ledger, KeyInHand(s)) && TaskTable.Discover(s.table, KeyInHand(s), s.poll.gen) == Admitted(u)
    ensures BookInv(Enlist(s, u).(poll := s.poll.(index := s.poll.index + 1)))
  {
    AdmittedKeeps(s, KeyInHand(s), s.poll.gen, u);
    EntryDone(Enlist(s, u), Enlist(s, u).(poll := s.poll.(index := s.poll.index + 1)));
  }

  // Observation ---------------------------------------------------------------------------------

  /** Observing a playlist never forgets an object of the root. */
  lemma ObserveRemembers(l: A.Ledger, playlist: seq<MediaSegment>, protected: set<Key>, changed: bool, k: Key)
    requires A.Observe(l, playlist, protected, changed).Some?
    requires k in l.captured || k in l.gapped || k in l.pending
    ensures var m := A.Observe(l, playlist, protected, changed).value; k in m.captured || k in m.gapped || k in m.pending
  {
  }

  /** Nor does it claim an archived object, or one that a task holds. */
  lemma ObserveSeparates(l: A.Ledger, playlist: seq<MediaSegment>, protected: set<Key>, changed: bool, k: Key)
    requires A.Observe(l, playlist, protected, changed).Some? && k !in l.gapped && (k in l.captured || k in protected)
    ensures var m := A.Observe(l, playlist, protected, changed).value; m.captured == l.captured && k !in m.gapped
  {
  }

  lemma ConsecutiveFills(playlist: seq<MediaSegment>, q: Uint64)
    requires playlist != [] && A.Consecutive(playlist) && A.MinSequence(playlist) <= q <= A.MaxSequence(playlist)
    ensures A.GapMarked(playlist, q) || OfferedFrom(playlist, 0, q)
  {
    var i :| 0 <= i < |playlist| && playlist[i].sequence == A.MinSequence(playlist);
    var j :| 0 <= j < |playlist| && playlist[j].sequence == A.MaxSequence(playlist);
    var n := q - playlist[0].sequence;
    assert playlist[0].sequence <= q && playlist[n].sequence == q;
  }

  /** After an observation its epoch's range is archived, a gap, protected or offered. */
  lemma ObserveCovers(b: Book, playlist: seq<MediaSegment>, protected: set<Key>, changed: bool, k: Key)
    requires RangesOk(b) && playlist != [] && A.Consecutive(playlist)
    requires A.Observe(b.ledger, playlist, protected, changed).Some?
    requires var m := A.Observe(b.ledger, playlist, protected, changed).value;
      k.epoch == m.epoch && InRange(Widen(b, m.epoch, playlist), k) && !InRange(b.ranges, k)
    ensures var m := A.Observe(b.ledger, playlist, protected, changed).value;
      k in m.captured || k in m.gapped || k in protected || OfferedFrom(playlist, 0, k.sequence)
  {
    if A.MinSequence(playlist) <= k.sequence <= A.MaxSequence(playlist) {
      ConsecutiveFills(playlist, k.sequence);
    }
  }

  lemma ObserveRanges(b: Book, playlist: seq<MediaSegment>, protected: set<Key>, changed: bool)
    requires RangesOk(b) && playlist != [] && A.Observe(b.ledger, playlist, protected, changed).Some?
    ensures var m := A.Observe(b.ledger, playlist, protected, changed).value;
      RangesOk(b.(ledger := m, ranges := Widen(b, m.epoch, playlist)))
  {
    assert A.MinSequence(playlist) <= A.MaxSequence(playlist);
  }

  lemma ObservedCovers(s: State, changed: bool, k: Key)
    requires BookInv(s) && s.poll.Guarded? && s.poll.playlist != [] && s.media == s.poll.gen
    requires A.Observe(s.book.ledger, s.poll.playlist, s.poll.protected, changed).Some?
    requires InRange(ObserveRoot(s, changed).book.ranges, k)
    ensures Known(ObserveRoot(s, changed), k)
  {
    var p := s.poll;
    if InRange(s.book.ranges, k) {
      if k in s.book.ledger.captured || k in s.book.ledger.gapped || k in s.book.ledger.pending {
        ObserveRemembers(s.book.ledger, p.playlist, p.protected, changed, k);
      }
    } else {
      ObserveCovers(s.book, p.playlist, p.protected, changed, k);
      if k in p.protected && (k in s.book.ledger.captured || k in s.book.ledger.gapped || k in s.book.ledger.pending) {
        ObserveRemembers(s.book.ledger, p.playlist, p.protected, changed, k);
      }
    }
  }

  lemma ObserveKeeps(s: State, changed: bool)
    requires BookInv(s) && s.poll.Guarded? && s.poll.playlist != []
    ensures BookInv(ObserveRoot(s, changed))
  {
    var p, t := s.poll, ObserveRoot(s, changed);
    var o := A.Observe(s.book.ledger, p.playlist, p.protected, changed);
    if s.media != p.gen {
      PollKeeps(s, t);
    } else if o == None {
      PollKeeps(s, s.(poll := Rest));
      PoolKeeps(s.(poll := Rest), t);
    } else {
      forall k | InRange(t.book.ranges, k) ensures Known(t, k) { ObservedCovers(s, changed, k); }
      ObserveRanges(s.book, p.playlist, p.protected, changed);
      forall k | k !in s.book.ledger.gapped && (k in s.book.ledger.captured || k in s.table.tasks)
        ensures k !in t.book.ledger.gapped
      {
        ObserveSeparates(s.book.ledger, p.playlist, p.protected, changed, k);
      }
      assert forall k | k in s.book.ledger.gapped :: k in t.book.ledger.gapped;
      assert t.book.ledger.captured == s.book.ledger.captured;
    }
  }

  // The rest of the poller --------------------------------------------------------------------------

  lemma GuardKeeps(s: State)
    requires BookInv(s) && s.poll.Started?
    ensures BookInv(Guard(s))
  {
    PollKeeps(s, Guard(s));
  }

  lemma QueueKeeps(s: State, ok: bool)
    requires BookInv(s) && s.poll.Observed?
    ensures BookInv(QueueRoot(s, ok))
  {
    if ok && !s.table.closed {
      PollKeeps(s, QueueRoot(s, ok));
    } else {
      AbandonKeeps(s);
      HaltKeeps(s);
    }
  }

  lemma WakeKeeps(s: State)
    requires BookInv(s) && s.poll.Waiting?
    ensures BookInv(Wake(s))
  {
    PollKeeps(s, Wake(s));
  }

  lemma FinishKeeps(s: State)
    requires BookInv(s) && CanFinishDiscovery(s)
    ensures BookInv(FinishDiscovery(s))
  {
    forall k ensures !Undiscovered(s.poll, k) {}
    PollKeeps(s, FinishDiscovery(s));
  }

  lemma BeginKeeps(s: State, playlist: seq<MediaSegment>, endList: bool, gen: nat)
    requires BookInv(s) && CanBegin(s, playlist)
    ensures BookInv(Begin(s, playlist, endList, gen))
  {
    PollKeeps(s, Begin(s, playlist, endList, gen));
  }

  lemma DrainKeeps(s: State)
    requires BookInv(s) && CanDrain(s)
    ensures BookInv(Drain(s))
  {
    PollKeeps(s, Drain(s));
  }

  /** The terminal update: with no task left, what was pending becomes a gap. */
  lemma FinalizeKeeps(s: State, t: State)
    requires BookInv(s) && s.table.tasks == map[] && (forall k :: !Undiscovered(s.poll, k))
    requires t == s.(poll := Rest, book := s.book.(ledger := A.FinalizeAll(s.book.ledger), root := t.book.root))
    ensures BookInv(t)
  {
    assert forall k :: Kept(s, k) ==> Kept(t, k);
  }

  lemma PublishKeeps(s: State, saved: bool)
    requires BookInv(s) && s.poll.Publishing?
    ensures BookInv(Publish(s, saved))
  {
    var r := s.(poll := Rest);
    PollKeeps(s, r);
    PoolKeeps(r, Halt(r));
    if s.media == s.poll.gen && saved { FinalizeKeeps(s, Publish(s, saved)); }
  }

  lemma StopKeeps(s: State)
    requires BookInv(s) && CanStop(s)
    ensures BookInv(Stop(s))
  {
    FinalizeKeeps(s, Stop(s));
  }

  /** close turns unfinished tasks into pending entries. */
  lemma SettleKeeps(s: State)
    requires BookInv(s) && Joined(s)
    ensures BookInv(Settle(s))
  {
    var t := Settle(s);
    assert forall k :: Known(s, k) ==> Kept(t, k);
    assert s.book.root != Recording ==> t.book.ledger.pending == iset{};
  }

  lemma CountersKeep(s: State, t: State)
    requires BookInv(s) && t == s.(table := s.table.(closed := t.table.closed), clock := t.clock, media := t.media,
      snapshots := t.snapshots, metadata := t.metadata, stopping := t.stopping, canceled := t.canceled, fatal := t.fatal)
    requires s.poll.Publishing? ==> t.snapshots <= s.snapshots && t.metadata <= s.metadata
    ensures BookInv(t)
  {
    assert forall k :: Known(s, k) ==> Known(t, k);
  }

  // Runs --------------------------------------------------------------------------------------------

  lemma SnapshotStep(s: State, a: Action, t: State)
    requires BookInv(s) && Step(s, a, t) && (a.AQueueSnapshot? || a.ASnapshotDone? || a.AMetadataDone?)
    ensures BookInv(t)
  {
    CountersKeep(s, t);
  }

  lemma EnvironmentStep(s: State, a: Action, t: State)
    requires BookInv(s) && Step(s, a, t) && (a.ARefreshCommit? || a.ANoteGeneration? || a.ACancel? || a.ACloseTable?)
    ensures BookInv(t)
  {
    CountersKeep(s, t);
  }

  lemma PollerStep(s: State, a: Action, t: State)
    requires BookInv(s) && Step(s, a, t)
    requires !O.OfWorker(a) && !O.OfTable(a) && !O.OfEnvironment(a) && !a.ACloseTable?
    ensures BookInv(t)
  {
    if a.ABegin? { BeginKeeps(s, a.playlist, a.endList, a.gen); }
    else if a.AGuard? { GuardKeeps(s); }
    else if a.AObserveRoot? { ObserveKeeps(s, a.identityChanged); }
    else if a.AQueueRoot? { QueueKeeps(s, a.ok); }
    else if a.AWake? { WakeKeeps(s); }
    else if a.AGiveUp? { GiveUpKeeps(s, a.saved); }
    else if a.AFinishDiscovery? { FinishKeeps(s); }
    else if a.ADrain? { DrainKeeps(s); }
    else if a.APublish? { PublishKeeps(s, a.saved); }
    else if a.AStop? { StopKeeps(s); }
  }

  lemma TableStep(s: State, a: Action, t: State)
    requires O.Inv(s) && BookInv(s) && Step(s, a, t) && O.OfTable(a) && !O.OfJob(a)
    ensures BookInv(t)
  {
    if a.ATimerEnd? { assert O.Exclusive(s.table, s.pool, a.timer.ref.key); TimerEdits(s, a.timer); EditsKeep(s, t); }
    else if a.ASweep? { SweepKeeps(s, a.ready); }
    else if a.ADiscoverNext? { DiscoverKeeps(s); }
    else if a.AEndList? { EndListKeeps(s, a.requeued); }
    else if a.ASettle? { SettleKeeps(s); }
  }

  lemma JobStep(s: State, a: Action, t: State)
    requires O.Inv(s) && BookInv(s) && Step(s, a, t) && O.OfJob(a)
    ensures BookInv(t)
  {
    if a.AJobCommit? { CommitKeeps(s, a.job); }
    else if a.AJobFail? { JobFailEdits(s, a.job); EditsKeep(s, t); }
    else if a.AJobDone? { JobDoneKeeps(s, a.job); }
    else if a.AGapperMark? { GapperMarkKeeps(s, a.gapper, a.saved); }
    else if a.AGapperDone? { GapperDoneKeeps(s, a.gapper); }
  }

  predicate OfEdit(a: Action) {
    a.ATake? || a.AExit? || a.AEnter? || a.ARefreshEnd? || a.ARefreshFail? || a.AMarkPersisting? || a.AAwait?
  }

  lemma WorkerEdits(s: State, a: Action, t: State)
    requires O.Inv(s) && Step(s, a, t) && OfEdit(a)
    ensures Edits(s, t)
  {
    if a.ATake? { TakeEdits(s, a.worker); }
    else if a.AExit? { ExitEdits(s, a.worker); }
    else if a.AEnter? { EnterEdits(s, a.worker); }
    else if a.ARefreshEnd? { RefreshEdits(s, a.worker, a.gen); }
    else if a.ARefreshFail? { RefreshFailEdits(s, a.worker); }
    else if a.AMarkPersisting? { assert O.Exclusive(s.table, s.pool, a.worker.ref.key) && O.On(a.worker, a.worker.ref.key); PersistingEdits(s, a.worker); }
    else if a.AAwait? { O.OwnerTask(s.table, s.pool, a.worker, !s.canceled); AwaitEdits(s, a.worker); }
  }

  lemma WorkerStep(s: State, a: Action, t: State)
    requires O.Inv(s) && BookInv(s) && Step(s, a, t) && O.OfWorker(a) && !OfEdit(a)
    ensures BookInv(t)
  {
    if a.AFetchEnd? { FetchKeeps(s, a.worker, a.fetched); }
    else if a.ASubmitEnd? { SubmitKeeps(s, a.worker, a.admitted); }
    else if a.ALeave? { assert O.Exclusive(s.table, s.pool, a.worker.ref.key) && O.On(a.worker, a.worker.ref.key); LeaveKeeps(s, a.worker, a.saved); }
    else if a.AGapMark? { GapMarkKeeps(s, a.worker, a.saved); }
    else if a.AGapDone? { GapDoneKeeps(s, a.worker); }
  }

  /** Every step keeps the books. */
  lemma StepKeeps(s: State, a: Action, t: State)
    requires O.Inv(s) && BookInv(s) && Step(s, a, t)
    ensures BookInv(t)
  {
    if O.OfWorker(a) {
      if OfEdit(a) {
        WorkerEdits(s, a, t);
        EditsKeep(s, t);
      } else {
        WorkerStep(s, a, t);
      }
    } else if O.OfJob(a) {
      JobStep(s, a, t);
    } else if O.OfTable(a) {
      TableStep(s, a, t);
    } else if a.AQueueSnapshot? || a.ASnapshotDone? || a.AMetadataDone? {
      SnapshotStep(s, a, t);
    } else if O.OfEnvironment(a) || a.ACloseTable? {
      EnvironmentStep(s, a, t);
    } else {
      PollerStep(s, a, t);
    }
  }

  lemma StepKeepsAt(states: seq<State>, actions: seq<Action>, i: nat)
    requires Run(states, actions) && i < |actions| && O.Inv(states[i]) && BookInv(states[i])
    ensures BookInv(states[i + 1])
  {
    StepKeeps(states[i], actions[i], states[i + 1]);
  }

  lemma {:induction false} RunKeepsBooks(states: seq<State>, actions: seq<Action>, i: nat)
    requires Run(states, actions) && O.Inv(states[0]) && BookInv(states[0]) && i < |states|
    ensures BookInv(states[i])
  {
    if i > 0 {
      RunKeepsBooks(states, actions, i - 1);
      O.RunKeepsOwnership(states, actions, i - 1);
      StepKeepsAt(states, actions, i - 1);
    }
  }
}
