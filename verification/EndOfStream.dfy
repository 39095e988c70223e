/** ENDLIST completes only the current source, and exactly when a playlist of a
    superseded source still writes to the root. */
module EndOfStream {
  import opened Archive
  import opened TaskTable
  import opened Acquisition
  import A = Accounting
  import O = Ownership
  import L = NoLoss

  /** The generation of the playlist that the poller works on. */
  function InHand(p: Poll): Option<nat> {
    match p
    case Rest => None
    case Started(_, _, gen) => Some(gen)
    case Guarded(_, _, gen, _) => Some(gen)
    case Observed(_, _, _, gen) => Some(gen)
    case Sweeping(_, _, _, gen) => Some(gen)
    case Discovering(_, _, _, gen, _) => Some(gen)
    case Waiting(_, _, _, gen, _) => Some(gen)
    case Ending(gen) => Some(gen)
    case Draining(gen) => Some(gen)
    case Publishing(gen) => Some(gen)
  }

  /** The scheduler never knows a newer source than the recording has, neither does
      the poller, and while an ENDLIST is drained it has ended exactly that source. */
  ghost predicate ClockInv(s: State) {
    && (s.clock.known ==> s.clock.latest <= s.media)
    && (s.clock.ending ==> s.clock.known && s.clock.endingGen <= s.media)
    && (InHand(s.poll).Some? ==> InHand(s.poll).value <= s.media)
    && (match s.poll
        case Draining(gen) => s.clock.endingGen == gen && (s.media == gen ==> s.clock.ending)
        case Publishing(gen) => s.clock.endingGen == gen && (s.media == gen ==> s.clock.ending)
        case _ => true)
  }

  /** How the clock may move: the known generation only grows, and an end of
      stream is taken back only for a newer generation. */
  ghost predicate ClockMoves(s: State, t: State) {
    && s.media <= t.media
    && (s.clock.known ==> t.clock.known && s.clock.latest <= t.clock.latest)
    && (s.clock.ending && !t.clock.ending ==> t.clock.latest > s.clock.endingGen)
  }

  ghost predicate ClockUntouched(s: State, t: State) {
    t.clock == s.clock && t.media == s.media && t.poll == s.poll
  }

  lemma LeaveFailedClock(s: State, w: Worker, saved: bool)
    requires w.Busy? && Live(s.table.tasks, w.ref)
    ensures Same(s, LeaveFailed(s, w, saved))
  {
  }

  lemma LeaveClock(s: State, w: Worker, saved: bool)
    requires CanLeave(s, w)
    ensures Same(s, Leave(s, w, saved))
  {
    var b := s.(table := s.table.(busy := s.table.busy - 1));
    LeaveForms(s, w, saved);
    if Live(s.table.tasks, w.ref) { LeaveFailedClock(b, w, saved); }
  }

  lemma LeaveForms(s: State, w: Worker, saved: bool)
    requires CanLeave(s, w)
    ensures var t, b := Leave(s, w, saved), s.(table := s.table.(busy := s.table.busy - 1));
      || t == Free(b, w) || t == Free(DropTask(b, w.ref), w) || t == Halt(Free(b, w)) || t == Halt(Retire(b, w))
      || t == To(b, w, Awaiting) || (Live(s.table.tasks, w.ref) && t == LeaveFailed(b, w, saved))
  {
    var t, b, o := Leave(s, w, saved), s.(table := s.table.(busy := s.table.busy - 1)), w.stage.outcome;
    if !Live(s.table.tasks, w.ref) || o == PersistQueued { assert t == Free(b, w); }
    else if o == StorageFailed { assert t == Halt(Free(b, w)); }
    else if o == Removed { assert t == Free(DropTask(b, w.ref), w); }
    else if s.canceled || o == Cancelled { assert t == Free(b, w); }
    else if o == RefreshExhausted || o == OtherFailure { assert t == Halt(Retire(b, w)); }
    else if o == AwaitsManifest { assert t == To(b, w, Awaiting); }
    else { assert t == LeaveFailed(b, w, saved); }
  }

  lemma AwaitClock(s: State, w: Worker)
    requires At(s, w, Awaiting) && ClockInv(s)
    ensures ClockInv(Await(s, w)) && ClockMoves(s, Await(s, w))
    ensures Await(s, w).pool.gappers == s.pool.gappers && Await(s, w).poll == s.poll && Await(s, w).media == s.media
  {
    var t := Await(s, w);
    assert t.poll == s.poll && t.media == s.media;
    assert t.clock == s.clock || (s.media > s.clock.latest && t.clock == TaskTable.Note(s.clock, s.media));
  }

  /** The clock and the root stay, the poller may at most give up its playlist, and no
      gap commit begins. */
  predicate Unmoved(s: State, t: State) {
    && t.clock == s.clock && t.media == s.media && (t.poll == s.poll || t.poll == Rest) && t.book.root == s.book.root
    && forall g | g in t.pool.gappers && !g.marked :: g in s.pool.gappers
  }

  ghost predicate Same(s: State, t: State) {
    ClockUntouched(s, t) && t.book.root == s.book.root && t.pool.gappers == s.pool.gappers
  }

  lemma TakeClock(s: State, w: Worker)
    ensures CanTake(s, w) ==> Same(s, Take(s, w))
    ensures CanExit(s, w) ==> Same(s, Exit(s, w))
    ensures CanEnter(s, w) ==> Same(s, Enter(s, w))
  {
  }

  lemma FetchClock(s: State, w: Worker, result: Fetched)
    requires CanFetch(s, w, result)
    ensures Same(s, FetchEnd(s, w, result))
  {
  }

  lemma RefreshClock(s: State, w: Worker, gen: nat)
    ensures CanRefresh(s, w, gen) ==> Same(s, RefreshEnd(s, w, gen))
    ensures CanRefreshFail(s, w) ==> Same(s, RefreshFail(s, w))
  {
  }

  lemma SubmitClock(s: State, w: Worker, result: Admitted)
    ensures CanSubmit(s, w) ==> Same(s, SubmitEnd(s, w, result))
    ensures At(s, w, Submitted) ==> Same(s, MarkPersisting(s, w))
  {
  }

  lemma GapClock(s: State, w: Worker, saved: bool)
    ensures At(s, w, Stage.Gap(false)) ==> Same(s, GapMark(s, w, saved))
    ensures At(s, w, Stage.Gap(true)) ==> Same(s, GapDone(s, w))
  {
  }

  lemma WorkerClock(s: State, a: Action, t: State)
    requires Step(s, a, t) && O.OfWorker(a) && !a.ALeave? && !a.AAwait?
    ensures Same(s, t)
  {
    if a.AFetchEnd? { FetchClock(s, a.worker, a.fetched); }
    else if a.ARefreshEnd? { RefreshClock(s, a.worker, a.gen); }
    else if a.ARefreshFail? { RefreshClock(s, a.worker, 0); }
    else if a.ASubmitEnd? { SubmitClock(s, a.worker, a.admitted); }
    else if a.AMarkPersisting? { SubmitClock(s, a.worker, Accepted); }
    else if a.AGapMark? { GapClock(s, a.worker, a.saved); }
    else if a.AGapDone? { GapClock(s, a.worker, true); }
    else if a.ATake? { TakeClock(s, a.worker); }
    else if a.AExit? { TakeClock(s, a.worker); }
    else if a.AEnter? { TakeClock(s, a.worker); }
  }

  lemma JobEndClock(s: State, j: Job)
    ensures CanCommit(s, j) ==> Unmoved(s, JobCommit(s, j)) && Unmoved(s, JobFail(s, j))
    ensures CanFinish(s, j) ==> Unmoved(s, JobDone(s, j))
  {
  }

  lemma GapperClock(s: State, g: Gapper, saved: bool)
    requires g in s.pool.gappers
    ensures !g.marked ==> Unmoved(s, GapperMark(s, g, saved))
    ensures g.marked ==> Unmoved(s, GapperDone(s, g))
  {
  }

  lemma TimerClock(s: State, m: Timer)
    requires m in s.pool.timers
    ensures Unmoved(s, TimerEnd(s, m))
  {
  }

  lemma SettleClock(s: State)
    requires Joined(s)
    ensures Unmoved(s, Settle(s))
  {
  }

  lemma JobClock(s: State, a: Action, t: State)
    requires Step(s, a, t) && (O.OfJob(a) || a.ATimerEnd?)
    ensures Unmoved(s, t)
  {
    if a.ATimerEnd? { TimerClock(s, a.timer); }
    else if a.AGapperMark? { GapperClock(s, a.gapper, a.saved); }
    else if a.AGapperDone? { GapperClock(s, a.gapper, true); }
    else if a.AJobCommit? { JobEndClock(s, a.job); }
    else if a.AJobFail? { JobEndClock(s, a.job); }
    else if a.AJobDone? { JobEndClock(s, a.job); }
  }

  /** Checking a generation never moves the clock past the recording's source. */
  lemma CheckedClock(s: State, gen: nat, t: State)
    requires ClockInv(s) && t.media == s.media && t.clock == Checked(s.clock, s.media, gen)
    requires t.poll == s.poll || !(t.poll.Draining? || t.poll.Publishing?) || (s.poll.Draining? && t.poll == Publishing(s.poll.gen))
    requires t.poll == Rest || InHand(t.poll) == InHand(s.poll) || InHand(t.poll) == Some(s.media)
    ensures ClockInv(t) && ClockMoves(s, t)
  {
  }

  lemma SweepClock(s: State, ready: seq<Ref>)
    requires CanSweep(s, ready) && ClockInv(s)
    ensures var t := Acquisition.Sweep(s, ready); ClockInv(t) && ClockMoves(s, t) && t.book.root == s.book.root
  {
    CheckedClock(s, s.poll.gen, Acquisition.Sweep(s, ready));
  }

  lemma DiscoverClock(s: State)
    requires CanDiscover(s) && ClockInv(s)
    ensures var t := DiscoverNext(s); ClockInv(t) && ClockMoves(s, t) && t.book.root == s.book.root
  {
    DiscoverGoesOn(s);
    CheckedClock(s, s.poll.gen, DiscoverNext(s));
  }

  lemma DiscoverGoesOn(s: State)
    requires CanDiscover(s)
    ensures var t := DiscoverNext(s);
      && t.clock == Checked(s.clock, s.media, s.poll.gen) && t.media == s.media && t.book.root == s.book.root
      && (t.poll == Rest || ((t.poll.Discovering? || t.poll.Waiting?) && t.poll.gen == s.poll.gen))
  {
    if !Current(s.clock, s.media, s.poll.gen) {
      assert DiscoverNext(s) == Abandon(s);
    }
  }

  lemma EndListClock(s: State, requeued: seq<Ref>)
    requires CanEnd(s, requeued) && ClockInv(s)
    ensures var t := EndList(s, requeued); ClockInv(t) && ClockMoves(s, t) && t.book.root == s.book.root
  {
  }

  lemma NoteClock(s: State, gen: nat)
    requires gen <= s.media && ClockInv(s)
    ensures ClockInv(NoteGeneration(s, gen)) && ClockMoves(s, NoteGeneration(s, gen))
  {
  }

  lemma EnvironmentClock(s: State, a: Action, t: State)
    requires Step(s, a, t) && O.OfEnvironment(a) && ClockInv(s)
    ensures ClockInv(t) && ClockMoves(s, t)
  {
    if a.ANoteGeneration? { NoteClock(s, a.gen); }
  }

  lemma BeginClock(s: State, playlist: seq<MediaSegment>, endList: bool, gen: nat)
    requires CanBegin(s, playlist) && ClockInv(s)
    ensures var t := Begin(s, playlist, endList, gen); ClockInv(t) && ClockMoves(s, t) && t.book.root == s.book.root
  {
    CheckedClock(s, gen, Begin(s, playlist, endList, gen));
  }

  lemma FinishClock(s: State)
    requires CanFinishDiscovery(s) && ClockInv(s)
    ensures var t := FinishDiscovery(s); ClockInv(t) && ClockMoves(s, t) && t.book.root == s.book.root
  {
    CheckedClock(s, s.poll.gen, FinishDiscovery(s));
  }

  lemma DrainClock(s: State)
    requires CanDrain(s) && ClockInv(s)
    ensures var t := Drain(s); ClockInv(t) && ClockMoves(s, t) && t.book.root == s.book.root
  {
    var t := Drain(s);
    if t.clock != s.clock { CheckedClock(s, s.poll.gen, t); }
  }

  /** What the steps that do not check the source do to the clock and the poller. */
  ghost predicate Passes(s: State, t: State) {
    && t.clock == s.clock && t.media == s.media && !t.poll.Draining? && !t.poll.Publishing?
    && (t.poll == Rest || InHand(t.poll) == InHand(s.poll))
  }

  lemma ObservationPasses(s: State, changed: bool, ok: bool)
    ensures s.poll.Started? ==> Passes(s, Guard(s))
    ensures s.poll.Guarded? && s.poll.playlist != [] ==> Passes(s, ObserveRoot(s, changed))
    ensures s.poll.Observed? ==> Passes(s, QueueRoot(s, ok))
    ensures s.poll.Waiting? ==> Passes(s, Wake(s))
    ensures CanGiveUp(s) ==> Passes(s, GiveUp(s, ok))
  {
  }

  lemma EndPasses(s: State, saved: bool)
    ensures s.poll.Publishing? ==> Passes(s, Publish(s, saved))
    ensures s.poll == Rest ==> Passes(s, CloseTable(s))
    ensures CanStop(s) ==> Passes(s, Stop(s))
  {
  }

  lemma PollerClock(s: State, a: Action, t: State)
    requires Step(s, a, t) && OfObservation(a)
    ensures Passes(s, t)
  {
    if a.AObserveRoot? { ObservationPasses(s, a.identityChanged, true); }
    else if a.AQueueRoot? { ObservationPasses(s, true, a.ok); }
    else if a.AGiveUp? { ObservationPasses(s, true, a.saved); }
    else if a.AGuard? || a.AWake? { ObservationPasses(s, true, true); }
    else { EndingPasses(s, a, t); }
  }

  lemma EndingPasses(s: State, a: Action, t: State)
    requires Step(s, a, t) && (a.APublish? || a.ACloseTable? || a.AStop?)
    ensures Passes(s, t)
  {
    if a.APublish? { EndPasses(s, a.saved); } else { EndPasses(s, true); }
  }

  predicate OfObservation(a: Action) {
    || a.AGuard? || a.AObserveRoot? || a.AQueueRoot? || a.AWake? || a.AGiveUp? || a.APublish? || a.ACloseTable? || a.AStop?
  }

  predicate ChecksGeneration(a: Action) {
    a.ASweep? || a.ADiscoverNext? || a.AEndList? || a.ABegin? || a.AFinishDiscovery? || a.ADrain?
  }

  lemma CheckingClock(s: State, a: Action, t: State)
    requires Step(s, a, t) && ChecksGeneration(a) && ClockInv(s)
    ensures ClockInv(t) && ClockMoves(s, t) && t.book.root == s.book.root
  {
    if a.ASweep? { SweepClock(s, a.ready); }
    else if a.ADiscoverNext? { DiscoverClock(s); }
    else if a.AEndList? { EndListClock(s, a.requeued); }
    else if a.ABegin? { BeginClock(s, a.playlist, a.endList, a.gen); }
    else if a.AFinishDiscovery? { FinishClock(s); }
    else if a.ADrain? { DrainClock(s); }
  }

  lemma WorkerStepClock(s: State, a: Action, t: State)
    requires Step(s, a, t) && O.OfWorker(a) && ClockInv(s)
    ensures ClockInv(t) && ClockMoves(s, t) && t.poll == s.poll && t.media == s.media && t.pool.gappers == s.pool.gappers
  {
    if a.ALeave? { LeaveClock(s, a.worker, a.saved); }
    else if a.AAwait? { AwaitClock(s, a.worker); }
    else { WorkerClock(s, a, t); }
  }

  lemma TableClock(s: State, a: Action, t: State)
    requires Step(s, a, t) && (O.OfJob(a) || a.ATimerEnd? || a.ASettle?) && ClockInv(s)
    ensures ClockInv(t) && ClockMoves(s, t)
  {
    if a.ASettle? { SettleClock(s); } else { JobClock(s, a, t); }
  }

  lemma PassingKeepsClock(s: State, t: State)
    requires Passes(s, t) && ClockInv(s)
    ensures ClockInv(t) && ClockMoves(s, t)
  {
  }

  lemma PollerStepClock(s: State, a: Action, t: State)
    requires Step(s, a, t) && (OfObservation(a) || ChecksGeneration(a)) && ClockInv(s)
    ensures ClockInv(t) && ClockMoves(s, t)
  {
    if ChecksGeneration(a) {
      CheckingClock(s, a, t);
    } else {
      PollerClock(s, a, t);
      PassingKeepsClock(s, t);
    }
  }

  /** Every step keeps the clock sound and moves it forwards. */
  lemma StepClock(s: State, a: Action, t: State)
    requires Step(s, a, t) && ClockInv(s)
    ensures ClockInv(t) && ClockMoves(s, t)
  {
    if O.OfWorker(a) { WorkerStepClock(s, a, t); }
    else if O.OfJob(a) || a.ATimerEnd? || a.ASettle? { TableClock(s, a, t); }
    else if O.OfEnvironment(a) { EnvironmentClock(s, a, t); }
    else { PollerStepClock(s, a, t); }
  }

  lemma {:induction false} RunClock(states: seq<State>, actions: seq<Action>, i: nat)
    requires Run(states, actions) && ClockInv(states[0]) && i < |states|
    ensures ClockInv(states[i])
  {
    if i > 0 {
      RunClock(states, actions, i - 1);
      StepClock(states[i - 1], actions[i - 1], states[i - 1 + 1]);
    }
  }

  lemma ClockAt(states: seq<State>, actions: seq<Action>, i: nat)
    requires Run(states, actions) && ClockInv(states[0]) && i < |actions|
    ensures ClockMoves(states[i], states[i + 1])
  {
    RunClock(states, actions, i);
    StepClock(states[i], actions[i], states[i + 1]);
  }

  ghost predicate Clocked(states: seq<State>) {
    forall i | 0 < i < |states| :: ClockMoves(states[i - 1], states[i])
  }

  lemma RunIsClocked(states: seq<State>, actions: seq<Action>)
    requires Run(states, actions) && ClockInv(states[0])
    ensures Clocked(states)
  {
    forall i | 0 < i < |states| ensures ClockMoves(states[i - 1], states[i]) {
      ClockAt(states, actions, i - 1);
    }
  }

  lemma {:induction false} ClocksGrow(states: seq<State>, i: nat, j: nat)
    requires Clocked(states) && i <= j < |states|
    ensures states[i].media <= states[j].media
    ensures states[i].clock.known ==> states[j].clock.known && states[i].clock.latest <= states[j].clock.latest
    decreases j
  {
    if i < j { ClocksGrow(states, i, j - 1); }
  }

  /** latestManifestGeneration never decreases between any two moments of a run, and
      neither does the recording's own generation. */
  lemma GenerationsGrow(states: seq<State>, actions: seq<Action>, i: nat, j: nat)
    requires Run(states, actions) && ClockInv(states[0]) && i <= j < |states|
    ensures states[i].media <= states[j].media
    ensures states[i].clock.known ==> states[j].clock.known && states[i].clock.latest <= states[j].clock.latest
  {
    RunIsClocked(states, actions);
    ClocksGrow(states, i, j);
  }

  lemma PollerDoesNotPublish(s: State, a: Action, t: State)
    requires Step(s, a, t) && OfObservation(a) && !a.APublish?
    ensures t.book.root == Completed ==> s.book.root == Completed
  {
  }

  lemma EnvironmentDoesNotPublish(s: State, a: Action, t: State)
    requires Step(s, a, t) && O.OfEnvironment(a)
    ensures t.book.root == s.book.root
  {
  }

  lemma AwaitDoesNotPublish(s: State, w: Worker)
    requires At(s, w, Awaiting)
    ensures Await(s, w).book.root == s.book.root
  {
  }

  lemma LeaveDoesNotPublish(s: State, w: Worker, saved: bool)
    requires CanLeave(s, w)
    ensures Leave(s, w, saved).book.root == s.book.root
  {
  }

  /** A recording becomes Completed only by publishing an ENDLIST of the source
      that is current at that moment, which has then ended, with every task,
      snapshot and metadata commit drained. */
  lemma CompletesOnlyTheCurrentSource(s: State, a: Action, t: State)
    requires L.BookInv(s) && ClockInv(s) && Step(s, a, t) && s.book.root != Completed && t.book.root == Completed
    ensures a.APublish? && s.poll == Publishing(s.media) && s.clock.ending && s.clock.endingGen == s.media && Drained(s)
    ensures t.book.ledger.pending == iset{}
  {
    if a.ALeave? { LeaveDoesNotPublish(s, a.worker, a.saved); }
    else if a.AAwait? { AwaitDoesNotPublish(s, a.worker); }
    else if O.OfWorker(a) { WorkerClock(s, a, t); }
    else if O.OfJob(a) || a.ATimerEnd? { JobClock(s, a, t); }
    else if a.ASettle? { SettleClock(s); }
    else if ChecksGeneration(a) { CheckingClock(s, a, t); }
    else if O.OfEnvironment(a) { EnvironmentDoesNotPublish(s, a, t); }
    else if !a.APublish? { PollerDoesNotPublish(s, a, t); }
  }

  // Superseded playlists ------------------------------------------------------------------------

  /** The source was refreshed while the poller works on this playlist. */
  predicate Superseded(s: State) { InHand(s.poll).Some? && InHand(s.poll).value < s.media }

  /** The steps that a playlist in hand takes, its gap commits included. */
  predicate OfPlaylist(a: Action) {
    || a.AGuard? || a.AObserveRoot? || a.AQueueRoot? || a.ASweep? || a.ADiscoverNext? || a.AWake? || a.AGiveUp?
    || a.AFinishDiscovery? || a.AEndList? || a.ADrain? || a.APublish? || a.AGapperMark? || a.AGapperDone?
  }

  /** Neither the root nor the tasks change. */
  ghost predicate WritesNothing(s: State, t: State) {
    && t.book.ledger == s.book.ledger && t.book.root == s.book.root && t.book.ranges == s.book.ranges
    && t.table.tasks == s.table.tasks && t.table.ready == s.table.ready && t.pool == s.pool
  }

  /** The playlist goes on or is given up, and leaves no trace. */
  ghost predicate Stops(s: State, t: State) {
    && WritesNothing(s, t) && !t.poll.Waiting? && t.media == s.media
    && (t.poll == Rest || InHand(t.poll) == InHand(s.poll))
  }

  predicate ChecksItsSource(a: Action) { OfPlaylist(a) && !a.AGiveUp? && !a.AGapperMark? && !a.AGapperDone? }

  lemma SupersededSweep(s: State, ready: seq<Ref>)
    requires CanSweep(s, ready) && Superseded(s)
    ensures Stops(s, Acquisition.Sweep(s, ready))
  {
  }

  lemma SupersededDiscovery(s: State)
    requires CanDiscover(s) && Superseded(s)
    ensures Stops(s, DiscoverNext(s))
  {
  }

  lemma SupersededEnd(s: State, requeued: seq<Ref>)
    requires CanEnd(s, requeued) && Superseded(s)
    ensures Stops(s, EndList(s, requeued))
  {
  }

  lemma ObservingStops(s: State, changed: bool, ok: bool)
    requires Superseded(s)
    ensures s.poll.Started? ==> Stops(s, Guard(s))
    ensures s.poll.Guarded? && s.poll.playlist != [] ==> Stops(s, ObserveRoot(s, changed))
    ensures s.poll.Observed? ==> Stops(s, QueueRoot(s, ok))
    ensures s.poll.Waiting? ==> Stops(s, Wake(s))
  {
  }

  lemma SupersededObservation(s: State, a: Action, t: State)
    requires Step(s, a, t) && (a.AGuard? || a.AObserveRoot?) && Superseded(s)
    ensures Stops(s, t)
  {
    ObservingStops(s, if a.AObserveRoot? then a.identityChanged else true, true);
  }

  lemma SupersededRoot(s: State, a: Action, t: State)
    requires Step(s, a, t) && (a.AQueueRoot? || a.AWake?) && Superseded(s)
    ensures Stops(s, t)
  {
    ObservingStops(s, true, if a.AQueueRoot? then a.ok else true);
  }

  lemma EndingStops(s: State, saved: bool)
    requires Superseded(s)
    ensures CanFinishDiscovery(s) ==> Stops(s, FinishDiscovery(s))
    ensures CanDrain(s) ==> Stops(s, Drain(s))
    ensures s.poll.Publishing? ==> Stops(s, Publish(s, saved))
  {
  }

  lemma SupersededEnding(s: State, a: Action, t: State)
    requires Step(s, a, t) && (a.AFinishDiscovery? || a.ADrain?) && Superseded(s)
    ensures Stops(s, t)
  {
    EndingStops(s, true);
  }

  lemma SupersededPublish(s: State, a: Action, t: State)
    requires Step(s, a, t) && a.APublish? && Superseded(s)
    ensures Stops(s, t)
  {
    EndingStops(s, a.saved);
  }

  /** Observation, sweeps, discovery, end of stream and publication check the source:
      for a superseded playlist they stop without a trace. */
  lemma CheckedStepsWriteNothing(s: State, a: Action, t: State)
    requires Step(s, a, t) && ChecksItsSource(a) && Superseded(s)
    ensures Stops(s, t)
  {
    if a.ASweep? { SupersededSweep(s, a.ready); }
    else if a.ADiscoverNext? { SupersededDiscovery(s); }
    else if a.AEndList? { SupersededEnd(s, a.requeued); }
    else if a.AGuard? || a.AObserveRoot? { SupersededObservation(s, a, t); }
    else if a.AQueueRoot? || a.AWake? { SupersededRoot(s, a, t); }
    else if a.APublish? { SupersededPublish(s, a, t); }
    else { SupersededEnding(s, a, t); }
  }

  /** Discovery that waits for room in the table has been cancelled, and what it has
      left is not all archived or pending. */
  ghost predicate InventoryDue(s: State) {
    && CanGiveUp(s)
    && exists i | s.poll.at <= i < |s.poll.playlist| :: !s.poll.playlist[i].gap &&
         Key(s.poll.epoch, s.poll.playlist[i].sequence) !in s.book.ledger.captured + s.book.ledger.pending
  }

  /** A gap commit has begun whose object is not settled yet, or still pending. */
  ghost predicate GapDue(s: State) {
    exists g | g in s.pool.gappers && !g.marked ::
      g.ref.key in s.book.ledger.pending || g.ref.key !in s.book.ledger.captured + s.book.ledger.gapped
  }

  lemma InventoryWritesIff(s: State)
    requires CanGiveUp(s)
    ensures GiveUp(s, true).book.ledger != s.book.ledger <==> InventoryDue(s)
    ensures GiveUp(s, false).book.ledger == s.book.ledger
  {
    var l, m, rest := s.book.ledger, GiveUp(s, true).book.ledger, s.poll.playlist[s.poll.at..];
    if InventoryDue(s) {
      var i :| s.poll.at <= i < |s.poll.playlist| && !s.poll.playlist[i].gap &&
        Key(s.poll.epoch, s.poll.playlist[i].sequence) !in l.captured + l.pending;
      assert rest[i - s.poll.at] == s.poll.playlist[i];
      assert Key(s.poll.epoch, s.poll.playlist[i].sequence) in m.pending;
    } else {
      forall k | k in m.pending ensures k in l.pending {
        L.OfferedRest(s.poll.playlist, s.poll.at, k.sequence);
      }
      assert m.pending == l.pending;
    }
  }

  lemma GapWritesIff(s: State, g: Gapper)
    requires g in s.pool.gappers && !g.marked
    ensures GapperMark(s, g, true).book.ledger != s.book.ledger
       <==> g.ref.key in s.book.ledger.pending || g.ref.key !in s.book.ledger.captured + s.book.ledger.gapped
    ensures GapperMark(s, g, false).book.ledger == s.book.ledger
  {
    var l, m := s.book.ledger, A.MarkGap(s.book.ledger, g.ref.key);
    if g.ref.key in l.pending || g.ref.key !in l.captured + l.gapped {
      assert g.ref.key in l.pending ==> g.ref.key !in m.pending;
      assert g.ref.key !in l.captured + l.gapped ==> g.ref.key in m.gapped;
    } else {
      assert m.gapped == l.gapped && m.pending == l.pending;
    }
  }

  /** The step is one of the playlist in hand, and it changes what the root says. */
  ghost predicate WritesBy(s: State, a: Action, t: State) {
    OfPlaylist(a) && Step(s, a, t) && t.book.ledger != s.book.ledger
  }

  lemma WriteIsDue(s: State, a: Action, t: State)
    requires Superseded(s) && WritesBy(s, a, t)
    ensures InventoryDue(s) || GapDue(s)
  {
    if ChecksItsSource(a) { CheckedStepsWriteNothing(s, a, t); }
    else if a.AGiveUp? { InventoryWritesIff(s); }
    else if a.AGapperMark? { GapWritesIff(s, a.gapper); }
  }

  lemma InventoryIsWritten(s: State)
    requires InventoryDue(s)
    ensures WritesBy(s, AGiveUp(true), GiveUp(s, true))
  {
    InventoryWritesIff(s);
  }

  lemma GapIsWritten(s: State) returns (g: Gapper)
    requires GapDue(s)
    ensures g in s.pool.gappers && !g.marked && WritesBy(s, AGapperMark(g, true), GapperMark(s, g, true))
  {
    g :| g in s.pool.gappers && !g.marked &&
      (g.ref.key in s.book.ledger.pending || g.ref.key !in s.book.ledger.captured + s.book.ledger.gapped);
    GapWritesIff(s, g);
  }

  /** When a superseded playlist writes. It can change the root if and only if its
      discovery was waiting for room when the run was cancelled, with something left
      to make pending, or it has begun to commit a gap. Nothing else of it writes. */
  lemma SupersededWritesIff(s: State)
    requires Superseded(s)
    ensures (exists a, t :: WritesBy(s, a, t)) <==> InventoryDue(s) || GapDue(s)
  {
    forall a, t | WritesBy(s, a, t) ensures InventoryDue(s) || GapDue(s) { WriteIsDue(s, a, t); }
    if InventoryDue(s) { InventoryIsWritten(s); }
    if GapDue(s) { var g := GapIsWritten(s); }
  }

  /** Neither waiting for room nor committing a gap. */
  predicate Uncommitted(s: State) { !s.poll.Waiting? && forall g | g in s.pool.gappers :: g.marked }

  lemma EnvironmentUncommitted(s: State, a: Action, t: State)
    requires Step(s, a, t) && O.OfEnvironment(a)
    ensures t.pool == s.pool && t.poll == s.poll && s.media <= t.media
  {
  }

  lemma BeginsOnlyAtRest(s: State, a: Action, t: State)
    requires Step(s, a, t) && (a.ABegin? || a.ASettle? || a.ACloseTable? || a.AStop?) && t.poll != Rest
    ensures s.poll == Rest
  {
  }

  lemma JobUncommitted(s: State, a: Action, t: State)
    requires Step(s, a, t) && O.OfJob(a) && Uncommitted(s)
    ensures OfPlaylist(a) ==> t.book.ledger == s.book.ledger
  {
  }

  lemma GiveUpNeedsWait(s: State, a: Action, t: State)
    requires Step(s, a, t) && a.AGiveUp?
    ensures s.poll.Waiting?
  {
  }

  /** From `s` to `t` a superseded playlist wrote nothing and is no nearer to writing. */
  ghost predicate StaysQuiet(s: State, a: Action, t: State) {
    Superseded(t) && Uncommitted(t) && (OfPlaylist(a) ==> t.book.ledger == s.book.ledger)
  }

  lemma JobStays(s: State, a: Action, t: State)
    requires Step(s, a, t) && (O.OfJob(a) || a.ATimerEnd?) && Superseded(s) && Uncommitted(s) && t.poll != Rest
    ensures StaysQuiet(s, a, t)
  {
    JobClock(s, a, t);
    if O.OfJob(a) { JobUncommitted(s, a, t); }
  }

  lemma OthersStayQuiet(s: State, a: Action, t: State)
    requires Superseded(s) && Uncommitted(s) && (O.OfWorker(a) || O.OfEnvironment(a))
    requires t.poll == s.poll && s.media <= t.media && t.pool.gappers == s.pool.gappers
    ensures StaysQuiet(s, a, t)
  {
  }

  lemma PollerStays(s: State, a: Action, t: State)
    requires Step(s, a, t) && !O.OfWorker(a) && !O.OfJob(a) && !a.ATimerEnd? && !O.OfEnvironment(a)
    requires Superseded(s) && Uncommitted(s) && t.poll != Rest
    ensures StaysQuiet(s, a, t)
  {
    if ChecksItsSource(a) { CheckedStepsWriteNothing(s, a, t); }
    else if a.AGiveUp? { GiveUpNeedsWait(s, a, t); }
    else { BeginsOnlyAtRest(s, a, t); }
  }

  /** A superseded playlist never starts to wait for room, nor to commit a gap. */
  lemma StaysUncommitted(s: State, a: Action, t: State)
    requires Superseded(s) && ClockInv(s) && Uncommitted(s) && Step(s, a, t) && t.poll != Rest
    ensures StaysQuiet(s, a, t)
  {
    if O.OfWorker(a) { WorkerStepClock(s, a, t); OthersStayQuiet(s, a, t); }
    else if O.OfJob(a) || a.ATimerEnd? { JobStays(s, a, t); }
    else if O.OfEnvironment(a) { EnvironmentUncommitted(s, a, t); OthersStayQuiet(s, a, t); }
    else { PollerStays(s, a, t); }
  }

  ghost predicate QuietAt(s: State, a: Action, t: State) {
    Superseded(s) && Uncommitted(s) && t.poll != Rest ==> StaysQuiet(s, a, t)
  }

  ghost predicate QuietRun(states: seq<State>, actions: seq<Action>)
    requires |states| == |actions| + 1
  {
    forall j | 0 <= j < |actions| :: QuietAt(states[j], actions[j], states[j + 1])
  }

  lemma RunIsQuiet(states: seq<State>, actions: seq<Action>)
    requires Run(states, actions) && ClockInv(states[0])
    ensures QuietRun(states, actions)
  {
    forall j | 0 <= j < |actions| ensures QuietAt(states[j], actions[j], states[j + 1]) {
      RunClock(states, actions, j);
      if Superseded(states[j]) && Uncommitted(states[j]) && states[j + 1].poll != Rest {
        StaysUncommitted(states[j], actions[j], states[j + 1]);
      }
    }
  }

  lemma {:induction false} QuietFrom(states: seq<State>, actions: seq<Action>, i: nat, n: nat)
    requires |states| == |actions| + 1 && QuietRun(states, actions) && i <= n <= |actions|
    requires Superseded(states[i]) && Uncommitted(states[i]) && forall j | i <= j <= n :: states[j].poll != Rest
    ensures Superseded(states[n]) && Uncommitted(states[n])
    ensures forall j | i <= j < n && OfPlaylist(actions[j]) :: states[j + 1].book.ledger == states[j].book.ledger
  {
    if i < n {
      QuietFrom(states, actions, i, n - 1);
      assert QuietAt(states[n - 1], actions[n - 1], states[n - 1 + 1]);
    }
  }

  /** However the run goes on: a playlist that is neither waiting for room nor
      committing a gap when its source is refreshed never writes again. */
  lemma SupersededNeverWrites(states: seq<State>, actions: seq<Action>, i: nat, n: nat)
    requires Run(states, actions) && ClockInv(states[0]) && i <= n <= |actions|
    requires Superseded(states[i]) && Uncommitted(states[i]) && forall j | i <= j <= n :: states[j].poll != Rest
    ensures forall j | i <= j < n && OfPlaylist(actions[j]) :: states[j + 1].book.ledger == states[j].book.ledger
  {
    RunIsQuiet(states, actions);
    QuietFrom(states, actions, i, n);
  }
}
