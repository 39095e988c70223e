/** One recording under acquisition: the playlist poller, up to four workers,
    the ingest jobs, retry timers and source refreshes, as atomic steps over one
    state. Each step is a critical section of the source. */
module Acquisition {
  import opened Archive
  import opened TaskTable
  import A = Accounting

  /** How `acquire` returns to the worker loop. */
  datatype Outcome =
    PersistQueued | StorageFailed | Removed | Cancelled | RefreshExhausted | AwaitsManifest | FetchFailed | OtherFailure

  datatype Stage =
    | Gate
    | Fetch(gen: nat, cycles: nat)
    | Refresh(gen: nat)
    | Submit
    | Submitted
    | Leaving(outcome: Outcome)
    | Awaiting
    | Gap(marked: bool)

  datatype Worker = Idle(burst: bool) | Busy(burst: bool, ref: Ref, stage: Stage)

  /** A payload in the ingest queue; `committed` once the root shows the segment. */
  datatype Job = Job(ref: Ref, committed: bool)

  datatype Timer = Timer(ref: Ref, token: nat)

  /** A gap commit on the poller's goroutine. */
  datatype Gapper = Gapper(ref: Ref, marked: bool)

  datatype Pool = Pool(crew: multiset<Worker>, jobs: multiset<Job>, timers: multiset<Timer>, gappers: multiset<Gapper>)

  datatype Poll =
    | Rest
    | Started(playlist: seq<MediaSegment>, endList: bool, gen: nat)
    | Guarded(playlist: seq<MediaSegment>, endList: bool, gen: nat, protected: set<Key>)
    | Observed(epoch: Uint64, playlist: seq<MediaSegment>, endList: bool, gen: nat)
    | Sweeping(epoch: Uint64, playlist: seq<MediaSegment>, endList: bool, gen: nat)
    | Discovering(epoch: Uint64, playlist: seq<MediaSegment>, endList: bool, gen: nat, index: nat)
    | Waiting(epoch: Uint64, playlist: seq<MediaSegment>, endList: bool, gen: nat, at: nat)
    | Ending(gen: nat)
    | Draining(gen: nat)
    | Publishing(gen: nat)

  datatype Root = Recording | Completed | Stopped

  datatype Range = Range(lo: Uint64, hi: Uint64)

  /** The recording root, and what the proofs remember about the run: the range
      each epoch was observed over, the objects that some step stopped accounting
      for, and the commits in order. */
  datatype Book = Book(ledger: A.Ledger, root: Root, ranges: map<Uint64, Range>, dropped: iset<Key>, log: seq<Ref>)

  datatype State = State(
    table: Table, clock: Clock, media: nat, pool: Pool, poll: Poll, book: Book,
    snapshots: nat, metadata: nat, stopping: bool, canceled: bool, fatal: bool)

  function Swap(crew: multiset<Worker>, a: Worker, b: Worker): multiset<Worker> {
    crew - multiset{a} + multiset{b}
  }

  /** Install a table; if the table grew, a burst worker starts. */
  ghost function Enlist(s: State, t: Table): State {
    s.(table := t, pool := s.pool.(crew := if t.workers > s.table.workers then s.pool.crew + multiset{Idle(true)} else s.pool.crew))
  }

  ghost function Move(s: State, a: Worker, b: Worker): State {
    s.(pool := s.pool.(crew := Swap(s.pool.crew, a, b)))
  }

  ghost function To(s: State, w: Worker, stage: Stage): State
    requires w.Busy?
  {
    Move(s, w, w.(stage := stage))
  }

  ghost function Free(s: State, w: Worker): State {
    Move(s, w, Idle(w.burst))
  }

  ghost function PutTask(s: State, k: Key, task: Task): State {
    s.(table := Put(s.table, k, task))
  }

  ghost function DropTask(s: State, r: Ref): State {
    if Live(s.table.tasks, r) then s.(table := Drop(s.table, r.key)) else s
  }

  ghost function WithLedger(s: State, l: A.Ledger): State {
    s.(book := s.book.(ledger := l))
  }

  /** failFatal */
  ghost function Halt(s: State): State {
    s.(fatal := true, canceled := true, table := s.table.(closed := true))
  }

  /** Offered by the playlist in hand and not yet handed to the table. */
  ghost predicate Undiscovered(p: Poll, k: Key) {
    match p
    case Observed(epoch, playlist, _, _) => k.epoch == epoch && OfferedFrom(playlist, 0, k.sequence)
    case Sweeping(epoch, playlist, _, _) => k.epoch == epoch && OfferedFrom(playlist, 0, k.sequence)
    case Discovering(epoch, playlist, _, _, index) => k.epoch == epoch && OfferedFrom(playlist, index, k.sequence)
    case Waiting(epoch, playlist, _, _, at) => k.epoch == epoch && OfferedFrom(playlist, at, k.sequence)
    case _ => false
  }

  predicate OfferedFrom(playlist: seq<MediaSegment>, index: nat, q: Uint64) {
    exists i | index <= i < |playlist| :: !playlist[i].gap && playlist[i].sequence == q
  }

  ghost predicate Recorded(l: A.Ledger, k: Key) { k in l.captured || k in l.gapped || k in l.pending }

  /** The root or a task knows the object, or the playlist in hand is about to. */
  ghost predicate Accounted(s: State, k: Key) {
    Recorded(s.book.ledger, k) || k in s.table.tasks || Undiscovered(s.poll, k)
  }

  /** Remember which objects nothing accounts for any more on the way from `s` to `t`. */
  ghost function Dropping(s: State, t: State): State {
    t.(book := t.book.(dropped := t.book.dropped + iset k: Key | Accounted(s, k) && !Accounted(t, k)))
  }

  /** removeTask after the ingest service refused the bytes. */
  ghost function Lose(s: State, r: Ref): State { Dropping(s, DropTask(s, r)) }

  /** The poller gives up the playlist in hand. */
  ghost function Abandon(s: State): State { Dropping(s, s.(poll := Rest)) }

  // Workers -----------------------------------------------------------------

  ghost predicate CanTake(s: State, w: Worker) {
    w in s.pool.crew && w.Idle? && !s.table.closed && !s.canceled && |s.table.ready| > 0
  }

  ghost function Take(s: State, w: Worker): State
    requires CanTake(s, w)
  {
    var r, t := s.table.ready[0], TakeHead(s.table);
    if HeadIsStale(s.table) then s.(table := t)
    else Enlist(Move(s, w, Busy(w.burst, r, Gate)), t)
  }

  ghost predicate CanExit(s: State, w: Worker) {
    && w in s.pool.crew && w.Idle? && s.table.workers > 0
    && (s.table.closed || s.canceled || (w.burst && s.table.ready == []))
  }

  ghost function Exit(s: State, w: Worker): State
    requires CanExit(s, w)
  {
    s.(table := s.table.(workers := s.table.workers - 1), pool := s.pool.(crew := s.pool.crew - multiset{w}))
  }

  ghost predicate At(s: State, w: Worker, stage: Stage) {
    w in s.pool.crew && w.Busy? && w.stage == stage
  }

  /** The first critical section of `acquire`. */
  ghost predicate CanEnter(s: State, w: Worker) {
    At(s, w, Gate) && Live(s.table.tasks, w.ref)
  }

  ghost function Enter(s: State, w: Worker): State
    requires CanEnter(s, w)
  {
    var task := s.table.tasks[w.ref.key];
    if Outdated(task, s.media)
    then To(PutTask(s, w.ref.key, Demand(task, s.media).(available := false, observed := false)), w, Leaving(AwaitsManifest))
    else To(s, w, Fetch(s.media, task.cycles))
  }

  /** How a download ends. */
  datatype Fetched = Complete | Stale | Refused | Broken | Aborted | IngestClosed | Unclassified

  ghost predicate CanFetch(s: State, w: Worker, result: Fetched) {
    && w in s.pool.crew && w.Busy? && w.stage.Fetch? && Live(s.table.tasks, w.ref)
    && (result == Stale ==> s.media != w.stage.gen)
    && (result == Aborted ==> s.canceled)
  }

  ghost function FetchEnd(s: State, w: Worker, result: Fetched): State
    requires CanFetch(s, w, result)
  {
    var k, task := w.ref.key, s.table.tasks[w.ref.key];
    match result
    case Complete => To(PutTask(s, k, task.(phase := Buffered)), w, Submit)
    case Stale => To(PutTask(s, k, AwaitGeneration(task, s.media)), w, Leaving(AwaitsManifest))
    case Refused =>
      if w.stage.cycles >= MAX_REFRESH_CYCLES then To(s, w, Leaving(RefreshExhausted))
      else if s.table.closed then To(s, w, Leaving(AwaitsManifest))
      else To(PutTask(s, k, task.(phase := Refreshing, awaiting := false)), w, Refresh(w.stage.gen))
    case Broken => To(s, w, Leaving(FetchFailed))
    case Aborted => To(s, w, Leaving(Cancelled))
    case IngestClosed => To(Lose(s, w.ref), w, Leaving(Removed))
    case Unclassified => To(s, w, Leaving(OtherFailure))
  }

  /** The coordinated refresh returns the generation that is now current. */
  ghost predicate CanRefresh(s: State, w: Worker, gen: nat) {
    w in s.pool.crew && w.Busy? && w.stage.Refresh? && w.stage.gen < gen <= s.media && Live(s.table.tasks, w.ref)
  }

  ghost function RefreshEnd(s: State, w: Worker, gen: nat): State
    requires CanRefresh(s, w, gen)
  {
    var task := s.table.tasks[w.ref.key];
    To(PutTask(s, w.ref.key, Demand(task, gen).(cycles := task.cycles + 1)), w, Leaving(AwaitsManifest))
  }

  ghost predicate CanRefreshFail(s: State, w: Worker) {
    w in s.pool.crew && w.Busy? && w.stage.Refresh?
  }

  ghost function RefreshFail(s: State, w: Worker): State
    requires CanRefreshFail(s, w)
  {
    To(s, w, Leaving(RefreshExhausted))
  }

  datatype Admitted = Accepted | Closed | Rejected

  /** Admission of a complete payload to the ingest queue. */
  ghost predicate CanSubmit(s: State, w: Worker) {
    At(s, w, Stage.Submit) && Live(s.table.tasks, w.ref)
  }

  ghost function SubmitEnd(s: State, w: Worker, result: Admitted): State
    requires CanSubmit(s, w)
  {
    match result
    case Accepted => To(s.(pool := s.pool.(jobs := s.pool.jobs + multiset{Job(w.ref, false)})), w, Submitted)
    case Closed => To(Lose(s, w.ref), w, Leaving(Removed))
    case Rejected => To(s, w, Leaving(if s.canceled then Cancelled else StorageFailed))
  }

  ghost function MarkPersisting(s: State, w: Worker): State
    requires At(s, w, Submitted)
  {
    To(if Live(s.table.tasks, w.ref) then PutTask(s, w.ref.key, s.table.tasks[w.ref.key].(phase := Persisting)) else s,
      w, Leaving(PersistQueued))
  }

  ghost predicate CanLeave(s: State, w: Worker) {
    w in s.pool.crew && w.Busy? && w.stage.Leaving?
  }

  /** The worker loop after `acquire` returns; `saved` says whether the pending
      mark could be stored. */
  ghost function Leave(s: State, w: Worker, saved: bool): State
    requires CanLeave(s, w)
  {
    var b := s.(table := s.table.(busy := s.table.busy - 1));
    if !Live(s.table.tasks, w.ref) || w.stage.outcome == PersistQueued then Free(b, w)
    else if w.stage.outcome == StorageFailed then Halt(Free(b, w))
    else if w.stage.outcome == Removed then Free(DropTask(b, w.ref), w)
    else if s.canceled || w.stage.outcome == Cancelled then Free(b, w)
    else if w.stage.outcome == RefreshExhausted || w.stage.outcome == OtherFailure then Halt(Retire(b, w))
    else if w.stage.outcome == AwaitsManifest then To(b, w, Awaiting)
    else LeaveFailed(b, w, saved)
  }

  /** A worker that ends without giving its slot back. */
  ghost function Retire(s: State, w: Worker): State {
    s.(pool := s.pool.(crew := s.pool.crew - multiset{w}))
  }

  ghost function LeaveFailed(s: State, w: Worker, saved: bool): State
    requires w.Busy? && Live(s.table.tasks, w.ref)
  {
    var k := w.ref.key;
    var after := AfterFailure(s.table.tasks[k], s.clock.ending);
    if !s.table.tasks[k].available then To(PutTask(s, k, after), w, Stage.Gap(false))
    else if !saved then Halt(Retire(s, w))
    else
      var p := PutTask(WithLedger(s, A.MarkPending(s.book.ledger, k)), k, after);
      if after.phase == GapCommitting then To(p, w, Stage.Gap(false))
      else Free(p.(pool := p.pool.(timers := p.pool.timers + multiset{Timer(w.ref, after.token)})), w)
  }

  ghost function Await(s: State, w: Worker): State
    requires At(s, w, Awaiting)
  {
    if !Live(s.table.tasks, w.ref) then Free(s, w)
    else
      var clock := if s.media > s.clock.latest then TaskTable.Note(s.clock, s.media) else s.clock;
      var t := AwaitNext(s.table, w.ref.key, clock.ending);
      var u := Enlist(s.(clock := clock), t);
      if t.tasks[w.ref.key].phase == GapCommitting then To(u, w, Stage.Gap(false)) else Free(u, w)
  }

  ghost function GapMark(s: State, w: Worker, saved: bool): State
    requires At(s, w, Stage.Gap(false))
  {
    if saved then To(WithLedger(s, A.MarkGap(s.book.ledger, w.ref.key)), w, Stage.Gap(true)) else Halt(Free(s, w))
  }

  ghost function GapDone(s: State, w: Worker): State
    requires At(s, w, Stage.Gap(true))
  {
    Free(DropTask(s, w.ref), w)
  }

  // Ingest jobs and timers ----------------------------------------------------

  ghost function Committed(b: Book, r: Ref): Book {
    if r.key in b.ledger.captured then b.(ledger := A.Capture(b.ledger, r.key))
    else b.(ledger := A.Capture(b.ledger, r.key), log := b.log + [r])
  }

  ghost predicate CanCommit(s: State, j: Job) {
    j in s.pool.jobs && !j.committed
  }

  /** persistSegment succeeded. */
  ghost function JobCommit(s: State, j: Job): State
    requires CanCommit(s, j)
  {
    s.(pool := s.pool.(jobs := s.pool.jobs - multiset{j} + multiset{Job(j.ref, true)}), book := Committed(s.book, j.ref))
  }

  ghost function JobFail(s: State, j: Job): State
    requires CanCommit(s, j)
  {
    Halt(s.(pool := s.pool.(jobs := s.pool.jobs - multiset{j})))
  }

  ghost predicate CanFinish(s: State, j: Job) {
    j in s.pool.jobs && j.committed
  }

  /** The ingest callback after a successful commit. */
  ghost function JobDone(s: State, j: Job): State
    requires CanFinish(s, j)
  {
    DropTask(s.(pool := s.pool.(jobs := s.pool.jobs - multiset{j})), j.ref)
  }

  ghost function TimerEnd(s: State, t: Timer): State
    requires t in s.pool.timers
  {
    var rest := s.(pool := s.pool.(timers := s.pool.timers - multiset{t}));
    if s.table.closed || s.canceled || !Live(s.table.tasks, t.ref) then rest
    else
      var task := s.table.tasks[t.ref.key];
      if task.token != t.token || !task.available then rest
      else Enlist(rest, Enqueue(s.table, t.ref.key, task))
  }

  // The environment -----------------------------------------------------------

  /** A refreshed source is committed. */
  ghost function RefreshCommit(s: State): State { s.(media := s.media + 1) }

  /** noteMediaGeneration, some time after the refresh it reports. */
  ghost function NoteGeneration(s: State, gen: nat): State
    requires gen <= s.media
  {
    s.(clock := TaskTable.Note(s.clock, gen))
  }

  ghost function Cancel(s: State): State { s.(stopping := true, canceled := true) }

  ghost function QueueSnapshot(s: State): State
    requires s.poll == Rest && !s.table.closed
  {
    s.(snapshots := s.snapshots + 1)
  }

  ghost function SnapshotDone(s: State, ok: bool): State
    requires s.snapshots > 0
  {
    var t := s.(snapshots := s.snapshots - 1);
    if ok then t else Halt(t)
  }

  ghost function MetadataDone(s: State, ok: bool): State
    requires s.metadata > 0
  {
    var t := s.(metadata := s.metadata - 1);
    if ok then t else Halt(t)
  }

  // The poller ------------------------------------------------------------------

  ghost predicate CanBegin(s: State, playlist: seq<MediaSegment>) {
    s.poll == Rest && s.book.root == Recording && A.Consecutive(playlist)
  }

  ghost function Begin(s: State, playlist: seq<MediaSegment>, endList: bool, gen: nat): State
    requires CanBegin(s, playlist)
  {
    var c := s.(clock := Checked(s.clock, s.media, gen));
    if !Current(s.clock, s.media, gen) then c
    else if playlist != [] then c.(poll := Started(playlist, endList, gen))
    else if endList then c.(poll := Ending(gen))
    else c
  }

  ghost function Guard(s: State): State
    requires s.poll.Started?
  {
    s.(poll := Guarded(s.poll.playlist, s.poll.endList, s.poll.gen, s.table.tasks.Keys))
  }

  ghost function Widen(b: Book, epoch: Uint64, playlist: seq<MediaSegment>): map<Uint64, Range>
    requires playlist != []
  {
    var lo, hi := A.MinSequence(playlist), A.MaxSequence(playlist);
    if epoch in b.ranges
    then b.ranges[epoch := Range(Min(b.ranges[epoch].lo, lo), Max(b.ranges[epoch].hi, hi))]
    else b.ranges[epoch := Range(lo, hi)]
  }

  /** observePlaylistAtGeneration: settle the root for the playlist in hand. */
  ghost function ObserveRoot(s: State, identityChanged: bool): State
    requires s.poll.Guarded? && s.poll.playlist != []
  {
    var p := s.poll;
    if s.media != p.gen then s.(poll := Rest)
    else
      var l := A.Observe(s.book.ledger, p.playlist, p.protected, identityChanged);
      if l == None then Halt(s.(poll := Rest))
      else s.(book := s.book.(ledger := l.value, ranges := Widen(s.book, l.value.epoch, p.playlist)),
              poll := Observed(l.value.epoch, p.playlist, p.endList, p.gen))
  }

  /** queueRecordingCommit for the observed root. */
  ghost function QueueRoot(s: State, ok: bool): State
    requires s.poll.Observed?
  {
    var p := s.poll;
    if ok && !s.table.closed then s.(metadata := s.metadata + 1, poll := Sweeping(p.epoch, p.playlist, p.endList, p.gen))
    else if s.canceled then Abandon(s)
    else Halt(Abandon(s))
  }

  ghost predicate CanSweep(s: State, ready: seq<Ref>) {
    && s.poll.Sweeping? && s.poll.playlist != []
    && Rebuilt(s.table, TaskTable.Sweep(s.table.tasks, s.poll.epoch, s.poll.playlist), ready)
  }

  ghost function GappersOf(refs: set<Ref>): multiset<Gapper> {
    multiset(set r | r in refs :: Gapper(r, false))
  }

  ghost function Sweep(s: State, ready: seq<Ref>): State
    requires CanSweep(s, ready)
  {
    var p := s.poll;
    if !Current(s.clock, s.media, p.gen) then Abandon(s)
    else
      var tasks := TaskTable.Sweep(s.table.tasks, p.epoch, p.playlist);
      s.(clock := Checked(s.clock, s.media, p.gen),
         table := s.table.(tasks := tasks, ready := ready),
         pool := s.pool.(gappers := s.pool.gappers + GappersOf(Expired(s.table.tasks, tasks))),
         poll := Discovering(p.epoch, p.playlist, p.endList, p.gen, 0))
  }

  ghost predicate CanDiscover(s: State) {
    s.poll.Discovering? && s.poll.index < |s.poll.playlist| && s.pool.gappers == multiset{}
  }

  ghost function KeyInHand(s: State): Key
    requires s.poll.Discovering? && s.poll.index < |s.poll.playlist|
  {
    Key(s.poll.epoch, s.poll.playlist[s.poll.index].sequence)
  }

  ghost predicate Settled(l: A.Ledger, k: Key) { k in l.captured || k in l.gapped }

  /** One entry of discoverAtGeneration: a critical section that checks the generation
      first. When the table is full the poller releases the lock and waits. */
  ghost function DiscoverNext(s: State): State
    requires CanDiscover(s)
  {
    var p := s.poll;
    var c, next := s.(clock := Checked(s.clock, s.media, p.gen)), p.(index := p.index + 1);
    if !Current(s.clock, s.media, p.gen) then Abandon(s)
    else if p.playlist[p.index].gap || Settled(s.book.ledger, KeyInHand(s)) then c.(poll := next)
    else if s.table.closed then Abandon(c)
    else
      match TaskTable.Discover(s.table, KeyInHand(s), p.gen)
      case Full => c.(poll := Waiting(p.epoch, p.playlist, p.endList, p.gen, p.index))
      case OrdinalOverflow => Halt(Abandon(c))
      case Admitted(t) => Enlist(c, t).(poll := next)
  }

  /** The table changed: the poller looks at the same entry again. */
  ghost function Wake(s: State): State
    requires s.poll.Waiting?
  {
    s.(poll := Discovering(s.poll.epoch, s.poll.playlist, s.poll.endList, s.poll.gen, s.poll.at))
  }

  /** The wait ends with the run: what the playlist still offers becomes pending. This
      branch does not check the generation again. */
  ghost predicate CanGiveUp(s: State) {
    s.poll.Waiting? && s.poll.at < |s.poll.playlist| && s.canceled
  }

  ghost function GiveUp(s: State, saved: bool): State
    requires CanGiveUp(s)
  {
    if saved
    then WithLedger(s, A.MarkRemainingPending(s.book.ledger, s.poll.epoch, s.poll.playlist[s.poll.at..])).(poll := Rest)
    else Halt(Abandon(s))
  }

  ghost predicate CanFinishDiscovery(s: State) {
    s.poll.Discovering? && s.poll.index >= |s.poll.playlist| && s.pool.gappers == multiset{}
  }

  ghost function FinishDiscovery(s: State): State
    requires CanFinishDiscovery(s)
  {
    s.(clock := Checked(s.clock, s.media, s.poll.gen),
       poll := if s.poll.endList && Current(s.clock, s.media, s.poll.gen) then Ending(s.poll.gen) else Rest)
  }

  ghost predicate CanEnd(s: State, requeued: seq<Ref>) {
    s.poll.Ending? && Requeues(s.table.tasks, requeued)
  }

  /** endList */
  ghost function EndList(s: State, requeued: seq<Ref>): State
    requires CanEnd(s, requeued)
  {
    var gen := s.poll.gen;
    if !Current(s.clock, s.media, gen) then s.(poll := Rest)
    else
      var t := EndListTable(s.table, requeued);
      var u := Enlist(s.(clock := Checked(s.clock, s.media, gen).(ending := true, endingGen := gen), poll := Draining(gen)), t);
      u.(pool := u.pool.(gappers := u.pool.gappers + GappersOf(Expired(s.table.tasks, t.tasks))))
  }

  ghost predicate Drained(s: State) {
    s.table.tasks == map[] && s.snapshots == 0 && s.metadata == 0
  }

  ghost predicate CanDrain(s: State) {
    && s.poll.Draining? && s.pool.gappers == multiset{}
    && (Drained(s) || s.canceled || !StillEnding(s))
  }

  ghost predicate StillEnding(s: State)
    requires s.poll.Draining?
  {
    s.clock.ending && s.clock.endingGen == s.poll.gen && Current(s.clock, s.media, s.poll.gen)
  }

  /** drainEndList returns. */
  ghost function Drain(s: State): State
    requires CanDrain(s)
  {
    if s.fatal || !StillEnding(s) then s.(poll := Rest)
    else
      var c := s.(clock := Checked(s.clock, s.media, s.poll.gen));
      c.(poll := if Drained(s) then Publishing(s.poll.gen) else Rest)
  }

  /** The terminal update at the ENDLIST playlist's generation. */
  ghost function Publish(s: State, saved: bool): State
    requires s.poll.Publishing?
  {
    if s.media != s.poll.gen then s.(poll := Rest)
    else if !saved then Halt(s.(poll := Rest))
    else s.(poll := Rest, book := s.book.(ledger := A.FinalizeAll(s.book.ledger), root := Completed))
  }

  ghost function GapperMark(s: State, g: Gapper, saved: bool): State
    requires g in s.pool.gappers && !g.marked
  {
    if saved then
      WithLedger(s.(pool := s.pool.(gappers := s.pool.gappers - multiset{g} + multiset{Gapper(g.ref, true)})),
        A.MarkGap(s.book.ledger, g.ref.key))
    else Halt(Abandon(s.(pool := s.pool.(gappers := multiset{}))))
  }

  ghost function GapperDone(s: State, g: Gapper): State
    requires g in s.pool.gappers && g.marked
  {
    DropTask(s.(pool := s.pool.(gappers := s.pool.gappers - multiset{g})), g.ref)
  }

  // Shutdown ---------------------------------------------------------------------

  /** The first half of close. */
  ghost function CloseTable(s: State): State
    requires s.poll == Rest
  {
    s.(canceled := true, table := s.table.(closed := true))
  }

  /** Every goroutine of the scheduler has been joined. */
  ghost predicate Joined(s: State) {
    && s.table.closed && s.poll == Rest && s.snapshots == 0 && s.metadata == 0
    && s.pool == Pool(multiset{}, multiset{}, multiset{}, multiset{})
  }

  /** The second half of close: unfinished tasks become pending. */
  ghost function Settle(s: State): State
    requires Joined(s)
  {
    var l := s.book.ledger;
    WithLedger(s.(table := s.table.(tasks := map[], ready := [])),
      l.(pending := l.pending + iset k: Key | k in s.table.tasks && k !in l.captured))
  }

  ghost predicate CanStop(s: State) {
    Joined(s) && s.table.tasks == map[] && s.stopping && !s.fatal && s.book.root == Recording
  }

  /** The terminal update of a stopped recording. */
  ghost function Stop(s: State): State
    requires CanStop(s)
  {
    s.(book := s.book.(ledger := A.FinalizeAll(s.book.ledger), root := Stopped))
  }

  // Runs -----------------------------------------------------------------------------

  datatype Action =
    | ATake(worker: Worker)
    | AExit(worker: Worker)
    | AEnter(worker: Worker)
    | AFetchEnd(worker: Worker, fetched: Fetched)
    | ARefreshEnd(worker: Worker, gen: nat)
    | ARefreshFail(worker: Worker)
    | ASubmitEnd(worker: Worker, admitted: Admitted)
    | AMarkPersisting(worker: Worker)
    | ALeave(worker: Worker, saved: bool)
    | AAwait(worker: Worker)
    | AGapMark(worker: Worker, saved: bool)
    | AGapDone(worker: Worker)
    | AJobCommit(job: Job)
    | AJobFail(job: Job)
    | AJobDone(job: Job)
    | ATimerEnd(timer: Timer)
    | ARefreshCommit
    | ANoteGeneration(gen: nat)
    | ACancel
    | AQueueSnapshot
    | ASnapshotDone(ok: bool)
    | AMetadataDone(ok: bool)
    | ABegin(playlist: seq<MediaSegment>, endList: bool, gen: nat)
    | AGuard
    | AObserveRoot(identityChanged: bool)
    | AQueueRoot(ok: bool)
    | ASweep(ready: seq<Ref>)
    | ADiscoverNext
    | AWake
    | AGiveUp(saved: bool)
    | AFinishDiscovery
    | AEndList(requeued: seq<Ref>)
    | ADrain
    | APublish(saved: bool)
    | AGapperMark(gapper: Gapper, saved: bool)
    | AGapperDone(gapper: Gapper)
    | ACloseTable
    | ASettle
    | AStop

  ghost predicate Step(s: State, a: Action, t: State) {
    match a
    case ATake(w) => CanTake(s, w) && t == Take(s, w)
    case AExit(w) => CanExit(s, w) && t == Exit(s, w)
    case AEnter(w) => CanEnter(s, w) && t == Enter(s, w)
    case AFetchEnd(w, r) => CanFetch(s, w, r) && t == FetchEnd(s, w, r)
    case ARefreshEnd(w, g) => CanRefresh(s, w, g) && t == RefreshEnd(s, w, g)
    case ARefreshFail(w) => CanRefreshFail(s, w) && t == RefreshFail(s, w)
    case ASubmitEnd(w, r) => CanSubmit(s, w) && t == SubmitEnd(s, w, r)
    case AMarkPersisting(w) => At(s, w, Submitted) && t == MarkPersisting(s, w)
    case ALeave(w, ok) => CanLeave(s, w) && t == Leave(s, w, ok)
    case AAwait(w) => At(s, w, Awaiting) && t == Await(s, w)
    case AGapMark(w, ok) => At(s, w, Stage.Gap(false)) && t == GapMark(s, w, ok)
    case AGapDone(w) => At(s, w, Stage.Gap(true)) && t == GapDone(s, w)
    case AJobCommit(j) => CanCommit(s, j) && t == JobCommit(s, j)
    case AJobFail(j) => CanCommit(s, j) && t == JobFail(s, j)
    case AJobDone(j) => CanFinish(s, j) && t == JobDone(s, j)
    case ATimerEnd(m) => m in s.pool.timers && t == TimerEnd(s, m)
    case ARefreshCommit => t == RefreshCommit(s)
    case ANoteGeneration(g) => g <= s.media && t == NoteGeneration(s, g)
    case ACancel => t == Cancel(s)
    case AQueueSnapshot => s.poll == Rest && !s.table.closed && t == QueueSnapshot(s)
    case ASnapshotDone(ok) => s.snapshots > 0 && t == SnapshotDone(s, ok)
    case AMetadataDone(ok) => s.metadata > 0 && t == MetadataDone(s, ok)
    case ABegin(p, e, g) => CanBegin(s, p) && t == Begin(s, p, e, g)
    case AGuard => s.poll.Started? && t == Guard(s)
    case AObserveRoot(c) => s.poll.Guarded? && s.poll.playlist != [] && t == ObserveRoot(s, c)
    case AQueueRoot(ok) => s.poll.Observed? && t == QueueRoot(s, ok)
    case ASweep(r) => CanSweep(s, r) && t == Sweep(s, r)
    case ADiscoverNext => CanDiscover(s) && t == DiscoverNext(s)
    case AWake => s.poll.Waiting? && t == Wake(s)
    case AGiveUp(ok) => CanGiveUp(s) && t == GiveUp(s, ok)
    case AFinishDiscovery => CanFinishDiscovery(s) && t == FinishDiscovery(s)
    case AEndList(r) => CanEnd(s, r) && t == EndList(s, r)
    case ADrain => CanDrain(s) && t == Drain(s)
    case APublish(ok) => s.poll.Publishing? && t == Publish(s, ok)
    case AGapperMark(g, ok) => g in s.pool.gappers && !g.marked && t == GapperMark(s, g, ok)
    case AGapperDone(g) => g in s.pool.gappers && g.marked && t == GapperDone(s, g)
    case ACloseTable => s.poll == Rest && t == CloseTable(s)
    case ASettle => Joined(s) && t == Settle(s)
    case AStop => CanStop(s) && t == Stop(s)
  }

  /** `states` is a run from its first state: each next state is one step on. */
  ghost predicate Run(states: seq<State>, actions: seq<Action>) {
    && |states| == |actions| + 1
    && forall i | 0 <= i < |actions| :: Step(states[i], actions[i], states[i + 1])
  }
}
