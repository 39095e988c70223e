/** What acquisition loses. An object is lost when nothing accounts for it any more:
    it is neither archived, a gap or pending, no task holds it, and the playlist in
    hand does not offer it. Which steps lose what, which bring a lost object back, and
    so which objects a run loses, exactly. */
module Losses {
  import opened Archive
  import opened TaskTable
  import opened Acquisition
  import A = Accounting
  import O = Ownership
  import L = NoLoss

  /** The steps that give up the playlist in hand, by the guard that fires: its root
      could not be queued, its source was replaced, the table closed or ran out of
      ordinals, or the inventory of a stop or a gap could not be saved. */
  ghost predicate Abandons(s: State, a: Action) {
    match a
    case AQueueRoot(ok) => !ok || s.table.closed
    case ASweep(_) => s.poll.Sweeping? && !Current(s.clock, s.media, s.poll.gen)
    case ADiscoverNext => s.poll.Discovering? && s.poll.index < |s.poll.playlist| &&
      (|| !Current(s.clock, s.media, s.poll.gen)
       || (NeedsTask(s) && (s.table.closed || TaskTable.Discover(s.table, KeyInHand(s), s.poll.gen) == OrdinalOverflow)))
    case AGiveUp(saved) => !saved
    case AGapperMark(_, saved) => !saved
    case _ => false
  }

  ghost predicate NeedsTask(s: State)
    requires s.poll.Discovering? && s.poll.index < |s.poll.playlist|
  {
    !s.poll.playlist[s.poll.index].gap && !Settled(s.book.ledger, KeyInHand(s))
  }

  /** The ingest service refuses a complete download because it is shutting down. */
  predicate Refuses(a: Action) {
    (a.AFetchEnd? && a.fetched == IngestClosed) || (a.ASubmitEnd? && a.admitted == Closed)
  }

  /** The step loses `k`. An abandoned playlist loses what it offered and nobody else
      holds; a refused download loses its object unless that is recorded or on offer. */
  ghost predicate Loses(s: State, a: Action, k: Key) {
    if Abandons(s, a) then Undiscovered(s.poll, k) && !Recorded(s.book.ledger, k) && k !in s.table.tasks
    else Refuses(a) && a.worker.Busy? && a.worker.ref.key == k && !Recorded(s.book.ledger, k) && !Undiscovered(s.poll, k)
  }

  /** The step observes a playlist of k's epoch that offers `k` or shows it missing. */
  ghost predicate Recovers(s: State, a: Action, k: Key) {
    && a.AObserveRoot? && s.poll.Guarded? && s.poll.playlist != [] && s.media == s.poll.gen
    && var o := A.Observe(s.book.ledger, s.poll.playlist, s.poll.protected, a.identityChanged);
      && o.Some? && k.epoch == o.value.epoch
      && (OfferedFrom(s.poll.playlist, 0, k.sequence) || (k in o.value.gapped && k !in s.book.ledger.gapped))
  }

  /** The step neither loses nor recovers anything. */
  ghost predicate SameAccount(s: State, t: State) {
    t.book.dropped == s.book.dropped && forall k :: Accounted(s, k) <==> Accounted(t, k)
  }

  /** Exactly `k` for which `lost` holds are lost. */
  ghost predicate LosesExactly(s: State, t: State, a: Action) {
    forall k :: (k in t.book.dropped <==> k in s.book.dropped || Loses(s, a, k)) && (Accounted(t, k) <==> Accounted(s, k) && !Loses(s, a, k))
  }

  lemma EditsAccount(s: State, t: State)
    requires L.Edits(s, t)
    ensures SameAccount(s, t)
  {
  }

  // Workers ----------------------------------------------------------------------------------

  lemma FetchAccount(s: State, w: Worker, result: Fetched)
    requires O.Inv(s) && CanFetch(s, w, result) && result != IngestClosed
    ensures SameAccount(s, FetchEnd(s, w, result))
  {
    O.OwnerTask(s.table, s.pool, w, !s.canceled);
    L.FetchEdits(s, w, result);
  }

  lemma SubmitAccount(s: State, w: Worker, result: Admitted)
    requires CanSubmit(s, w) && result != Closed
    ensures SameAccount(s, SubmitEnd(s, w, result))
  {
    L.SubmitEdits(s, w, result);
  }

  lemma LoseAccount(s: State, w: Worker, t: State, a: Action)
    requires w.Busy? && Live(s.table.tasks, w.ref) && t == To(Lose(s, w.ref), w, Leaving(Removed))
    requires Refuses(a) && !Abandons(s, a) && a.worker == w
    ensures LosesExactly(s, t, a)
  {
    forall k ensures Accounted(t, k) <==> Accounted(s, k) && !Loses(s, a, k) {
      assert k in t.table.tasks <==> k in s.table.tasks && k != w.ref.key;
    }
  }

  lemma LeaveAccount(s: State, w: Worker, saved: bool)
    requires O.Inv(s) && CanLeave(s, w)
    ensures SameAccount(s, Leave(s, w, saved))
  {
    assert O.Exclusive(s.table, s.pool, w.ref.key) && O.On(w, w.ref.key);
    L.LeaveCases(s, w, saved);
    var b := s.(table := s.table.(busy := s.table.busy - 1));
    if Live(s.table.tasks, w.ref) && Leave(s, w, saved) == LeaveFailed(b, w, saved) {
      LeaveFailedAccount(b, w, saved);
    }
  }

  lemma LeaveFailedAccount(s: State, w: Worker, saved: bool)
    requires w.Busy? && Live(s.table.tasks, w.ref)
    ensures SameAccount(s, LeaveFailed(s, w, saved))
  {
    var t := LeaveFailed(s, w, saved);
    assert t.table.tasks.Keys == s.table.tasks.Keys;
    assert t.book.ledger == s.book.ledger || t.book.ledger == A.MarkPending(s.book.ledger, w.ref.key);
  }

  lemma GapAccount(s: State, t: State, k: Key)
    requires k in s.table.tasks && t.poll == s.poll && t.table.tasks == s.table.tasks
    requires t.book == s.book || t.book == s.book.(ledger := A.MarkGap(s.book.ledger, k))
    ensures SameAccount(s, t)
  {
  }

  lemma DropAccount(s: State, t: State, r: Ref)
    requires Live(s.table.tasks, r) ==> Recorded(s.book.ledger, r.key)
    requires t.book == s.book && t.poll == s.poll && t.table.tasks == DropTask(s, r).table.tasks
    ensures SameAccount(s, t)
  {
  }

  predicate OfDownload(a: Action) { a.AFetchEnd? || a.ASubmitEnd? }

  lemma DownloadAccount(s: State, a: Action, t: State)
    requires O.Inv(s) && Step(s, a, t) && OfDownload(a)
    ensures if Refuses(a) then LosesExactly(s, t, a) else SameAccount(s, t)
  {
    if Refuses(a) { LoseAccount(s, a.worker, t, a); }
    else if a.AFetchEnd? { FetchAccount(s, a.worker, a.fetched); }
    else { SubmitAccount(s, a.worker, a.admitted); }
  }

  predicate OfExit(a: Action) { a.ALeave? || a.AGapMark? || a.AGapDone? }

  lemma ExitAccount(s: State, a: Action, t: State)
    requires O.Inv(s) && L.BookInv(s) && Step(s, a, t) && OfExit(a)
    ensures SameAccount(s, t)
  {
    if a.ALeave? {
      LeaveAccount(s, a.worker, a.saved);
    } else if a.AGapMark? {
      O.OwnerTask(s.table, s.pool, a.worker, !s.canceled);
      GapAccount(s, t, a.worker.ref.key);
    } else {
      DropAccount(s, t, a.worker.ref);
    }
  }

  // Ingest jobs, gap commits and timers ---------------------------------------------------------

  lemma CommitAccount(s: State, j: Job)
    requires O.Inv(s) && L.BookInv(s) && CanCommit(s, j)
    ensures SameAccount(s, JobCommit(s, j)) && SameAccount(s, JobFail(s, j))
  {
    L.CommitIsNew(s, j);
  }

  lemma AbandonAccount(s: State, t: State, a: Action)
    requires Abandons(s, a) && t.poll == Rest && t.table.tasks == s.table.tasks && t.book == Abandon(s).book
    ensures LosesExactly(s, t, a)
  {
  }

  lemma GapperAccount(s: State, g: Gapper, saved: bool)
    requires O.Inv(s) && g in s.pool.gappers && !g.marked
    ensures if saved then SameAccount(s, GapperMark(s, g, saved)) else LosesExactly(s, GapperMark(s, g, saved), AGapperMark(g, saved))
  {
    if saved {
      assert O.Exclusive(s.table, s.pool, g.ref.key);
      GapAccount(s, GapperMark(s, g, saved), g.ref.key);
    } else {
      var p := s.(pool := s.pool.(gappers := multiset{}));
      assert Abandon(p).book.dropped == Abandon(s).book.dropped;
      AbandonAccount(s, GapperMark(s, g, saved), AGapperMark(g, saved));
    }
  }

  lemma TimerAccount(s: State, m: Timer)
    requires O.Inv(s) && L.BookInv(s) && m in s.pool.timers
    ensures SameAccount(s, TimerEnd(s, m))
  {
    assert O.Exclusive(s.table, s.pool, m.ref.key);
    L.TimerEdits(s, m);
    EditsAccount(s, TimerEnd(s, m));
  }

  lemma JobAccount(s: State, a: Action, t: State)
    requires O.Inv(s) && L.BookInv(s) && Step(s, a, t) && (O.OfJob(a) || a.ATimerEnd?)
    ensures if Abandons(s, a) then LosesExactly(s, t, a) else SameAccount(s, t)
  {
    if a.AJobCommit? { CommitAccount(s, a.job); }
    else if a.AJobFail? { CommitAccount(s, a.job); }
    else if a.AJobDone? { DropAccount(s, t, a.job.ref); }
    else if a.AGapperMark? { GapperAccount(s, a.gapper, a.saved); }
    else if a.AGapperDone? { DropAccount(s, t, a.gapper.ref); }
    else if a.ATimerEnd? { TimerAccount(s, a.timer); }
  }

  // The poller ------------------------------------------------------------------------------------

  lemma SweepAccount(s: State, ready: seq<Ref>)
    requires CanSweep(s, ready)
    ensures var t, a := Acquisition.Sweep(s, ready), ASweep(ready);
      if Abandons(s, a) then LosesExactly(s, t, a) else SameAccount(s, t)
  {
    if Abandons(s, ASweep(ready)) { AbandonAccount(s, Acquisition.Sweep(s, ready), ASweep(ready)); }
  }

  lemma QueueAccount(s: State, ok: bool)
    requires s.poll.Observed?
    ensures var t, a := QueueRoot(s, ok), AQueueRoot(ok);
      if Abandons(s, a) then LosesExactly(s, t, a) else SameAccount(s, t)
  {
    if Abandons(s, AQueueRoot(ok)) { AbandonAccount(s, QueueRoot(s, ok), AQueueRoot(ok)); }
  }

  /** The poller moves past an entry that is settled, marked as a gap, or has a task now. */
  lemma EntryAccount(s: State, t: State)
    requires s.poll.Discovering? && s.poll.index < |s.poll.playlist| && t.poll == s.poll.(index := s.poll.index + 1)
    requires t.book == s.book && !Abandons(s, ADiscoverNext)
    requires forall k | k != KeyInHand(s) :: k in t.table.tasks <==> k in s.table.tasks
    requires KeyInHand(s) in s.table.tasks ==> KeyInHand(s) in t.table.tasks
    requires if NeedsTask(s) then KeyInHand(s) in t.table.tasks else t.table.tasks == s.table.tasks
    ensures SameAccount(s, t)
  {
    forall k ensures Accounted(s, k) <==> Accounted(t, k) {
      if OfferedFrom(s.poll.playlist, s.poll.index, k.sequence) {
        L.OfferedNext(s.poll.playlist, s.poll.index, k.sequence);
      }
      assert OfferedFrom(s.poll.playlist, s.poll.index + 1, k.sequence) ==> OfferedFrom(s.poll.playlist, s.poll.index, k.sequence);
      assert NeedsTask(s) ==> Undiscovered(s.poll, KeyInHand(s));
    }
  }

  lemma DiscoverAccount(s: State)
    requires CanDiscover(s)
    ensures if Abandons(s, ADiscoverNext) then LosesExactly(s, DiscoverNext(s), ADiscoverNext) else SameAccount(s, DiscoverNext(s))
  {
    var t := DiscoverNext(s);
    if Abandons(s, ADiscoverNext) {
      DiscoverAbandons(s);
      AbandonAccount(s, t, ADiscoverNext);
    } else if t.poll.Discovering? {
      DiscoverAdmits(s);
      EntryAccount(s, t);
    } else {
      DiscoverWaits(s);
    }
  }

  lemma DiscoverAbandons(s: State)
    requires CanDiscover(s) && Abandons(s, ADiscoverNext)
    ensures var t := DiscoverNext(s); t.poll == Rest && t.table.tasks == s.table.tasks && t.book == Abandon(s).book
  {
    var c := s.(clock := Checked(s.clock, s.media, s.poll.gen));
    assert Abandon(c).book.dropped == Abandon(s).book.dropped;
  }

  lemma DiscoverAdds(t: Table, k: Key, gen: nat, u: Table)
    requires TaskTable.Discover(t, k, gen) == Admitted(u)
    ensures k in u.tasks && forall l | l != k :: l in u.tasks <==> l in t.tasks
  {
  }

  lemma DiscoverAdmits(s: State)
    requires CanDiscover(s) && !Abandons(s, ADiscoverNext) && DiscoverNext(s).poll.Discovering?
    ensures var t, k := DiscoverNext(s), KeyInHand(s);
      && t.poll == s.poll.(index := s.poll.index + 1) && t.book == s.book
      && (forall l | l != k :: l in t.table.tasks <==> l in s.table.tasks)
      && (if NeedsTask(s) then k in t.table.tasks else t.table.tasks == s.table.tasks)
  {
    if NeedsTask(s) {
      var d := TaskTable.Discover(s.table, KeyInHand(s), s.poll.gen);
      if d.Admitted? { DiscoverAdds(s.table, KeyInHand(s), s.poll.gen, d.table); }
    }
  }

  lemma DiscoverWaits(s: State)
    requires CanDiscover(s) && !Abandons(s, ADiscoverNext) && !DiscoverNext(s).poll.Discovering?
    ensures SameAccount(s, DiscoverNext(s))
  {
  }

  lemma GiveUpAccount(s: State, saved: bool)
    requires CanGiveUp(s)
    ensures if saved then SameAccount(s, GiveUp(s, saved)) else LosesExactly(s, GiveUp(s, saved), AGiveUp(saved))
  {
    var t := GiveUp(s, saved);
    if saved {
      forall k ensures Accounted(s, k) <==> Accounted(t, k) {
        L.OfferedRest(s.poll.playlist, s.poll.at, k.sequence);
      }
    } else {
      AbandonAccount(s, t, AGiveUp(saved));
    }
  }

  lemma FinalizeAccount(s: State, t: State)
    requires (forall k :: !Undiscovered(s.poll, k)) && t.poll == Rest && t.table.tasks == s.table.tasks
    requires t.book == s.book || t.book == s.book.(ledger := A.FinalizeAll(s.book.ledger), root := t.book.root)
    ensures SameAccount(s, t)
  {
  }

  lemma SettleAccount(s: State)
    requires Joined(s)
    ensures SameAccount(s, Settle(s))
  {
  }

  lemma EndAccount(s: State, requeued: seq<Ref>)
    requires CanEnd(s, requeued)
    ensures SameAccount(s, EndList(s, requeued))
  {
  }

  lemma FinishAccount(s: State)
    requires CanFinishDiscovery(s)
    ensures SameAccount(s, FinishDiscovery(s))
  {
    forall k ensures !Undiscovered(s.poll, k) {}
  }

  lemma BeginAccount(s: State, playlist: seq<MediaSegment>, endList: bool, gen: nat)
    ensures CanBegin(s, playlist) ==> SameAccount(s, Begin(s, playlist, endList, gen))
    ensures s.poll.Started? ==> SameAccount(s, Guard(s))
    ensures s.poll.Waiting? ==> SameAccount(s, Wake(s))
    ensures CanDrain(s) ==> SameAccount(s, Drain(s))
  {
  }

  predicate OfDiscovery(a: Action) { a.AQueueRoot? || a.ASweep? || a.ADiscoverNext? || a.AGiveUp? || a.AWake? || a.AFinishDiscovery? }

  lemma DiscoveryAccount(s: State, a: Action, t: State)
    requires Step(s, a, t) && OfDiscovery(a)
    ensures if Abandons(s, a) then LosesExactly(s, t, a) else SameAccount(s, t)
  {
    if a.AQueueRoot? { QueueAccount(s, a.ok); }
    else if a.ASweep? { SweepAccount(s, a.ready); }
    else if a.ADiscoverNext? { DiscoverAccount(s); }
    else if a.AGiveUp? { GiveUpAccount(s, a.saved); }
    else if a.AFinishDiscovery? { FinishAccount(s); }
    else { BeginAccount(s, [], false, 0); }
  }

  predicate OfBegin(a: Action) { a.ABegin? || a.AGuard? || a.ADrain? }

  predicate OfEnd(a: Action) { a.AEndList? || a.APublish? || a.ACloseTable? || a.ASettle? || a.AStop? }

  lemma PublishAccount(s: State, saved: bool)
    ensures s.poll.Publishing? ==> SameAccount(s, Publish(s, saved))
    ensures s.poll == Rest ==> SameAccount(s, CloseTable(s))
    ensures CanStop(s) ==> SameAccount(s, Stop(s))
  {
    if s.poll.Publishing? { FinalizeAccount(s, Publish(s, saved)); }
    if CanStop(s) { FinalizeAccount(s, Stop(s)); }
  }

  lemma PublishStepAccount(s: State, a: Action, t: State)
    requires Step(s, a, t) && OfEnd(a) && !a.AEndList? && !a.ASettle?
    ensures SameAccount(s, t)
  {
    if a.APublish? { PublishAccount(s, a.saved); } else { PublishAccount(s, true); }
  }

  lemma EndStepAccount(s: State, a: Action, t: State)
    requires Step(s, a, t) && OfEnd(a)
    ensures SameAccount(s, t)
  {
    if a.AEndList? { EndAccount(s, a.requeued); }
    else if a.ASettle? { SettleAccount(s); }
    else { PublishStepAccount(s, a, t); }
  }

  lemma BeginStepAccount(s: State, a: Action, t: State)
    requires Step(s, a, t) && OfBegin(a)
    ensures SameAccount(s, t)
  {
    if a.ABegin? { BeginAccount(s, a.playlist, a.endList, a.gen); }
    else { BeginAccount(s, [], false, 0); }
  }

  lemma EnvironmentAccount(s: State, a: Action, t: State)
    requires Step(s, a, t) && O.OfEnvironment(a)
    ensures SameAccount(s, t)
  {
  }

  /** An observation keeps what was accounted for, and adds exactly what it recovers. */
  lemma ObserveAccount(s: State, changed: bool)
    requires s.poll.Guarded? && s.poll.playlist != []
    ensures var t := ObserveRoot(s, changed);
      t.book.dropped == s.book.dropped && forall k :: Accounted(t, k) <==> Accounted(s, k) || Recovers(s, AObserveRoot(changed), k)
  {
    var t, a := ObserveRoot(s, changed), AObserveRoot(changed);
    var o := A.Observe(s.book.ledger, s.poll.playlist, s.poll.protected, changed);
    if s.media == s.poll.gen && o.Some? {
      forall k ensures Accounted(t, k) <==> Accounted(s, k) || Recovers(s, a, k) {
        ObserveRecords(s.book.ledger, s.poll.playlist, s.poll.protected, changed, k);
      }
    }
  }

  lemma ObserveRecords(l: A.Ledger, playlist: seq<MediaSegment>, protected: set<Key>, changed: bool, k: Key)
    requires playlist != [] && A.Observe(l, playlist, protected, changed).Some?
    ensures var m := A.Observe(l, playlist, protected, changed).value;
      && (Recorded(m, k) <==> Recorded(l, k) || (k in m.gapped && k !in l.gapped))
      && (k in m.gapped && k !in l.gapped && !Recorded(l, k) ==> k.epoch == m.epoch)
  {
  }

  // Steps and runs -----------------------------------------------------------------------------------

  lemma LossIsExact(s: State, a: Action, t: State)
    requires if Abandons(s, a) || Refuses(a) then LosesExactly(s, t, a) else SameAccount(s, t)
    ensures LosesExactly(s, t, a)
  {
  }

  lemma WorkerAccount(s: State, a: Action, t: State)
    requires O.Inv(s) && L.BookInv(s) && Step(s, a, t) && O.OfWorker(a)
    ensures if Refuses(a) then LosesExactly(s, t, a) else SameAccount(s, t)
  {
    if OfDownload(a) { DownloadAccount(s, a, t); }
    else if OfExit(a) { ExitAccount(s, a, t); }
    else { L.WorkerEdits(s, a, t); EditsAccount(s, t); }
  }

  lemma TableAccount(s: State, a: Action, t: State)
    requires O.Inv(s) && L.BookInv(s) && Step(s, a, t) && (O.OfWorker(a) || O.OfJob(a) || a.ATimerEnd?)
    ensures LosesExactly(s, t, a)
  {
    if O.OfWorker(a) { WorkerAccount(s, a, t); } else { JobAccount(s, a, t); }
    LossIsExact(s, a, t);
  }

  lemma EnvironmentStepAccount(s: State, a: Action, t: State)
    requires Step(s, a, t) && O.OfEnvironment(a)
    ensures LosesExactly(s, t, a)
  {
    EnvironmentAccount(s, a, t);
    LossIsExact(s, a, t);
  }

  lemma PollerAccount(s: State, a: Action, t: State)
    requires Step(s, a, t) && (OfDiscovery(a) || OfBegin(a) || OfEnd(a))
    ensures LosesExactly(s, t, a)
  {
    if OfDiscovery(a) { DiscoveryAccount(s, a, t); }
    else if OfBegin(a) { BeginStepAccount(s, a, t); }
    else { EndStepAccount(s, a, t); }
    LossIsExact(s, a, t);
  }

  lemma StepAccount(s: State, a: Action, t: State)
    requires O.Inv(s) && L.BookInv(s) && Step(s, a, t) && !a.AObserveRoot?
    ensures LosesExactly(s, t, a)
  {
    if O.OfWorker(a) || O.OfJob(a) || a.ATimerEnd? { TableAccount(s, a, t); }
    else if O.OfEnvironment(a) { EnvironmentStepAccount(s, a, t); }
    else { PollerAccount(s, a, t); }
  }

  lemma OnlyAccountedIsLost(s: State, a: Action, t: State, k: Key)
    requires Step(s, a, t) && Loses(s, a, k)
    ensures Accounted(s, k)
  {
  }

  /** Exactly what one step loses and recovers. An object is unaccounted for after a
      step if and only if the step lost it, or it was so before and the step is not an
      observation that brings it back. */
  lemma StepLoses(s: State, a: Action, t: State, k: Key)
    requires O.Inv(s) && L.BookInv(s) && Step(s, a, t)
    ensures !Accounted(t, k) <==> Loses(s, a, k) || (!Accounted(s, k) && !Recovers(s, a, k))
    ensures k in t.book.dropped <==> k in s.book.dropped || Loses(s, a, k)
  {
    if a.AObserveRoot? {
      ObserveAccount(s, a.identityChanged);
    } else {
      StepAccount(s, a, t);
      if Loses(s, a, k) { OnlyAccountedIsLost(s, a, t, k); }
    }
  }

  /** For an object inside an observed range, being brought back means that a playlist
      of its epoch offers it again or marks it as a gap. */
  lemma RecoversIff(s: State, a: Action, k: Key)
    requires L.BookInv(s) && a.AObserveRoot? && s.poll.Guarded? && s.media == s.poll.gen
    requires L.InRange(s.book.ranges, k) && !Accounted(s, k)
    ensures Recovers(s, a, k) <==>
      && !A.Resets(s.book.ledger.hasLast, s.book.ledger.last, s.poll.playlist, a.identityChanged)
      && k.epoch == s.book.ledger.epoch
      && (OfferedFrom(s.poll.playlist, 0, k.sequence) || (A.GapMarked(s.poll.playlist, k.sequence) && k !in s.poll.protected))
  {
  }

  /** No index between j and n satisfies `p`. */
  predicate NoneAfter(p: nat -> bool, j: nat, n: nat) { forall i: nat | j < i < n :: !p(i) }

  /** One object over time: `gone(i)` before step i, `dropped(i)` if ever lost before
      step i, and the steps that lose or recover it. */
  predicate History(gone: nat -> bool, dropped: nat -> bool, loses: nat -> bool, recovers: nat -> bool, n: nat) {
    forall i: nat | i < n :: HappensAt(gone, dropped, loses, recovers, i)
  }

  predicate HappensAt(gone: nat -> bool, dropped: nat -> bool, loses: nat -> bool, recovers: nat -> bool, i: nat) {
    (gone(i + 1) <==> loses(i) || (gone(i) && !recovers(i))) && (dropped(i + 1) <==> dropped(i) || loses(i))
  }

  lemma {:induction false} LastLoss(gone: nat -> bool, dropped: nat -> bool, loses: nat -> bool, recovers: nat -> bool, n: nat) returns (j: nat)
    requires History(gone, dropped, loses, recovers, n) && !dropped(0) && dropped(n) && gone(n)
    ensures j < n && loses(j) && NoneAfter(recovers, j, n)
  {
    assert n > 0 && HappensAt(gone, dropped, loses, recovers, n - 1);
    if loses(n - 1) {
      j := n - 1;
    } else {
      j := LastLoss(gone, dropped, loses, recovers, n - 1);
    }
  }

  lemma {:induction false} StaysGone(gone: nat -> bool, dropped: nat -> bool, loses: nat -> bool, recovers: nat -> bool, j: nat, n: nat)
    requires History(gone, dropped, loses, recovers, n) && j < n && loses(j) && NoneAfter(recovers, j, n)
    ensures gone(n)
  {
    assert HappensAt(gone, dropped, loses, recovers, n - 1);
    if j < n - 1 { StaysGone(gone, dropped, loses, recovers, j, n - 1); }
  }

  lemma GoneIff(gone: nat -> bool, dropped: nat -> bool, loses: nat -> bool, recovers: nat -> bool, n: nat)
    requires History(gone, dropped, loses, recovers, n) && !dropped(0) && (gone(n) ==> dropped(n))
    ensures gone(n) <==> exists j: nat :: j < n && loses(j) && NoneAfter(recovers, j, n)
  {
    if gone(n) {
      var j := LastLoss(gone, dropped, loses, recovers, n);
    }
    forall j: nat | j < n && loses(j) && NoneAfter(recovers, j, n) ensures gone(n) {
      StaysGone(gone, dropped, loses, recovers, j, n);
    }
  }

  ghost function GoneAt(states: seq<State>, k: Key): nat -> bool {
    (i: nat) => i < |states| && !Accounted(states[i], k)
  }

  ghost function DroppedAt(states: seq<State>, k: Key): nat -> bool {
    (i: nat) => i < |states| && k in states[i].book.dropped
  }

  ghost function LosesAt(states: seq<State>, actions: seq<Action>, k: Key): nat -> bool {
    (i: nat) => i < |states| && i < |actions| && Loses(states[i], actions[i], k)
  }

  ghost function RecoversAt(states: seq<State>, actions: seq<Action>, k: Key): nat -> bool {
    (i: nat) => i < |states| && i < |actions| && Recovers(states[i], actions[i], k)
  }

  /** Step j loses `k`, and no later step up to n brings it back. */
  ghost predicate LostFor(states: seq<State>, actions: seq<Action>, j: nat, n: nat, k: Key) {
    LosesAt(states, actions, k)(j) && NoneAfter(RecoversAt(states, actions, k), j, n)
  }

  lemma StepOf(states: seq<State>, actions: seq<Action>, i: nat, k: Key)
    requires Run(states, actions) && O.Inv(states[0]) && L.BookInv(states[0]) && i < |actions|
    ensures !Accounted(states[i + 1], k) <==> Loses(states[i], actions[i], k) || (!Accounted(states[i], k) && !Recovers(states[i], actions[i], k))
    ensures k in states[i + 1].book.dropped <==> k in states[i].book.dropped || Loses(states[i], actions[i], k)
  {
    O.RunKeepsOwnership(states, actions, i);
    L.RunKeepsBooks(states, actions, i);
    StepLoses(states[i], actions[i], states[i + 1], k);
  }

  /** Step i, in the terms of a history. */
  lemma HistoryAt(states: seq<State>, actions: seq<Action>, i: nat, k: Key)
    requires Run(states, actions) && O.Inv(states[0]) && L.BookInv(states[0]) && i < |actions|
    ensures HappensAt(GoneAt(states, k), DroppedAt(states, k), LosesAt(states, actions, k), RecoversAt(states, actions, k), i)
  {
    StepOf(states, actions, i, k);
  }

  lemma HistoryOf(states: seq<State>, actions: seq<Action>, n: nat, k: Key)
    requires Run(states, actions) && O.Inv(states[0]) && L.BookInv(states[0]) && n < |states|
    ensures History(GoneAt(states, k), DroppedAt(states, k), LosesAt(states, actions, k), RecoversAt(states, actions, k), n)
  {
    forall i: nat | i < n
      ensures HappensAt(GoneAt(states, k), DroppedAt(states, k), LosesAt(states, actions, k), RecoversAt(states, actions, k), i)
    {
      HistoryAt(states, actions, i, k);
    }
  }

  lemma KnownInRange(states: seq<State>, actions: seq<Action>, n: nat, k: Key)
    requires Run(states, actions) && O.Inv(states[0]) && L.BookInv(states[0]) && n < |states|
    requires L.InRange(states[n].book.ranges, k)
    ensures Accounted(states[n], k) || k in states[n].book.dropped
  {
    L.RunKeepsBooks(states, actions, n);
    assert L.Known(states[n], k);
  }

  /** Exactly what a run loses. At any moment, an object of an observed range is
      unaccounted for if and only if some step lost it, by giving up a playlist that
      offered it or by refusing its download at shutdown, and no playlist of its epoch
      observed after that offers it again or shows it to be missing. */
  lemma LostIff(states: seq<State>, actions: seq<Action>, n: nat, k: Key)
    requires Run(states, actions) && O.Inv(states[0]) && L.BookInv(states[0]) && n < |states|
    requires k !in states[0].book.dropped && L.InRange(states[n].book.ranges, k)
    ensures !Accounted(states[n], k) <==> exists j: nat :: j < n && LostFor(states, actions, j, n, k)
  {
    HistoryOf(states, actions, n, k);
    KnownInRange(states, actions, n, k);
    GoneIff(GoneAt(states, k), DroppedAt(states, k), LosesAt(states, actions, k), RecoversAt(states, actions, k), n);
    LostForAny(states, actions, n, k);
  }

  lemma LostForAny(states: seq<State>, actions: seq<Action>, n: nat, k: Key)
    ensures (exists j: nat :: j < n && LosesAt(states, actions, k)(j) && NoneAfter(RecoversAt(states, actions, k), j, n))
       <==> (exists j: nat :: j < n && LostFor(states, actions, j, n, k))
  {
    if j: nat :| j < n && LosesAt(states, actions, k)(j) && NoneAfter(RecoversAt(states, actions, k), j, n) {
      assert LostFor(states, actions, j, n, k);
    }
  }

  /** What a finished recording says about its ranges: nothing is pending, and each
      object is archived, or a gap, or neither; neither exactly when it was lost. */
  lemma EndPartition(states: seq<State>, actions: seq<Action>, n: nat, k: Key)
    requires Run(states, actions) && O.Inv(states[0]) && L.BookInv(states[0]) && n < |states|
    requires k !in states[0].book.dropped && L.InRange(states[n].book.ranges, k) && states[n].book.root != Recording
    ensures var l := states[n].book.ledger;
      && l.pending == iset{} && !(k in l.captured && k in l.gapped)
      && (k !in l.captured && k !in l.gapped <==> exists j: nat :: j < n && LostFor(states, actions, j, n, k))
  {
    L.RunKeepsBooks(states, actions, n);
    LostIff(states, actions, n, k);
  }

  /** No silent loss. In a run in which no step loses `k`, an observed `k` is at all
      times archived, a gap, pending, held by a live task or about to be discovered,
      and once the recording has ended it is archived or a gap and not both. */
  lemma NoSilentLoss(states: seq<State>, actions: seq<Action>, n: nat, k: Key)
    requires Run(states, actions) && O.Inv(states[0]) && L.BookInv(states[0]) && k !in states[0].book.dropped
    requires forall j | 0 <= j < |actions| :: !Loses(states[j], actions[j], k)
    requires n < |states| && L.InRange(states[n].book.ranges, k)
    ensures var s := states[n]; var l := s.book.ledger;
      && (k in l.captured || k in l.gapped || k in l.pending || k in s.table.tasks || Undiscovered(s.poll, k))
      && (s.book.root != Recording ==> l.pending == iset{} && (k in l.captured <==> k !in l.gapped))
  {
    L.RunKeepsBooks(states, actions, n);
    LostIff(states, actions, n, k);
  }
}
