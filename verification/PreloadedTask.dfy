/** The preloaded task of a handover among the other tasks of its scheduler: which
    steps of the whole machine turn it into a gap. Playlist sweeps never do. */
module PreloadedTask {
  import opened Archive
  import opened TaskTable
  import opened Acquisition
  import D = Departures
  import O = Ownership

  /** The step makes the task of `k` a gap. */
  ghost predicate Expires(s: State, t: State, k: Key)
    requires k in s.table.tasks
  {
    s.table.tasks[k].phase != GapCommitting && k in t.table.tasks && t.table.tasks[k].phase == GapCommitting
  }

  /** ENDLIST of the current source while the task waits for a playlist. */
  ghost predicate EndsWaiting(s: State, a: Action, k: Key)
    requires k in s.table.tasks
  {
    && a.AEndList? && s.poll.Ending? && Current(s.clock, s.media, s.poll.gen)
    && s.table.tasks[k].phase == AwaitManifest && !Refreshed(s.table.tasks[k])
  }

  /** A worker puts the task back to wait after ENDLIST. */
  ghost predicate WaitsTooLate(s: State, a: Action, k: Key)
    requires k in s.table.tasks
  {
    && a.AAwait? && a.worker.Busy? && a.worker.ref == Ref(k, s.table.tasks[k].ordinal)
    && !Refreshed(s.table.tasks[k]) && AwaitClock(s).ending
  }

  ghost function AwaitClock(s: State): Clock {
    if s.media > s.clock.latest then TaskTable.Note(s.clock, s.media) else s.clock
  }

  /** Its own download failed for good; by then it has given up its payloads. */
  ghost predicate FailsForGood(s: State, a: Action, k: Key)
    requires k in s.table.tasks
  {
    && a.ALeave? && a.worker.Busy? && a.worker.ref == Ref(k, s.table.tasks[k].ordinal) && a.worker.stage == Leaving(FetchFailed) && !s.canceled
    && D.LastAttempt(s.table.tasks[k], s.clock.ending) && (s.table.tasks[k].available ==> a.saved)
  }

  lemma TakeSpares(s: State, w: Worker, k: Key)
    requires k in s.table.tasks && CanTake(s, w)
    ensures !Expires(s, Take(s, w), k)
  {
  }

  lemma EnterSpares(s: State, w: Worker, k: Key)
    requires k in s.table.tasks
    ensures CanExit(s, w) ==> !Expires(s, Exit(s, w), k)
    ensures CanEnter(s, w) ==> !Expires(s, Enter(s, w), k)
  {
  }

  lemma FetchSpares(s: State, w: Worker, result: Fetched, k: Key)
    requires k in s.table.tasks && CanFetch(s, w, result)
    ensures !Expires(s, FetchEnd(s, w, result), k)
  {
  }

  lemma SubmitSpares(s: State, w: Worker, result: Admitted, gen: nat, k: Key)
    requires k in s.table.tasks
    ensures CanSubmit(s, w) ==> !Expires(s, SubmitEnd(s, w, result), k)
    ensures At(s, w, Submitted) ==> !Expires(s, MarkPersisting(s, w), k)
    ensures CanRefresh(s, w, gen) ==> !Expires(s, RefreshEnd(s, w, gen), k)
    ensures CanRefreshFail(s, w) ==> !Expires(s, RefreshFail(s, w), k)
  {
  }

  lemma GapSpares(s: State, w: Worker, saved: bool, k: Key)
    requires k in s.table.tasks
    ensures At(s, w, Stage.Gap(false)) ==> !Expires(s, GapMark(s, w, saved), k)
    ensures At(s, w, Stage.Gap(true)) ==> !Expires(s, GapDone(s, w), k)
  {
  }

  lemma AwaitNextOn(t: Table, l: Key, ending: bool, k: Key)
    requires l in t.tasks && k in t.tasks
    ensures k in AwaitNext(t, l, ending).tasks
    ensures AwaitNext(t, l, ending).tasks[k].phase == GapCommitting
       <==> if k == l then !Refreshed(t.tasks[k]) && ending else t.tasks[k].phase == GapCommitting
  {
  }

  lemma AwaitTasks(s: State, w: Worker)
    requires At(s, w, Awaiting)
    ensures Await(s, w).table.tasks ==
      (if Live(s.table.tasks, w.ref) then AwaitNext(s.table, w.ref.key, AwaitClock(s).ending).tasks else s.table.tasks)
  {
  }

  lemma AwaitExpires(s: State, w: Worker, k: Key)
    requires At(s, w, Awaiting) && k in s.table.tasks
    ensures Expires(s, Await(s, w), k) <==> s.table.tasks[k].phase != GapCommitting && WaitsTooLate(s, AAwait(w), k)
  {
    AwaitTasks(s, w);
    if Live(s.table.tasks, w.ref) { AwaitNextOn(s.table, w.ref.key, AwaitClock(s).ending, k); }
  }

  lemma LeaveFailedExpires(s: State, w: Worker, saved: bool, k: Key)
    requires w.Busy? && Live(s.table.tasks, w.ref) && k in s.table.tasks
    ensures Expires(s, LeaveFailed(s, w, saved), k) <==>
      && s.table.tasks[k].phase != GapCommitting && k == w.ref.key
      && D.LastAttempt(s.table.tasks[k], s.clock.ending) && (s.table.tasks[k].available ==> saved)
  {
    D.FailureMeans(s.table.tasks[w.ref.key], s.clock.ending);
    if k != w.ref.key { OthersStay(s, w, saved, k); }
  }

  lemma OthersStay(s: State, w: Worker, saved: bool, k: Key)
    requires w.Busy? && Live(s.table.tasks, w.ref) && k in s.table.tasks && k != w.ref.key
    ensures k in LeaveFailed(s, w, saved).table.tasks && LeaveFailed(s, w, saved).table.tasks[k] == s.table.tasks[k]
  {
  }

  lemma LeaveExpires(s: State, w: Worker, saved: bool, k: Key)
    requires CanLeave(s, w) && k in s.table.tasks
    ensures Expires(s, Leave(s, w, saved), k) <==> s.table.tasks[k].phase != GapCommitting && FailsForGood(s, ALeave(w, saved), k)
  {
    var b := s.(table := s.table.(busy := s.table.busy - 1));
    if Live(s.table.tasks, w.ref) && w.stage.outcome == FetchFailed && !s.canceled {
      assert Leave(s, w, saved) == LeaveFailed(b, w, saved);
      LeaveFailedExpires(b, w, saved, k);
    } else {
      LeaveSpares(s, w, saved, k);
    }
  }

  lemma LeaveSpares(s: State, w: Worker, saved: bool, k: Key)
    requires CanLeave(s, w) && k in s.table.tasks
    requires !Live(s.table.tasks, w.ref) || w.stage.outcome != FetchFailed || s.canceled
    ensures !Expires(s, Leave(s, w, saved), k)
  {
  }

  lemma JobSpares(s: State, j: Job, k: Key)
    requires k in s.table.tasks
    ensures CanCommit(s, j) ==> !Expires(s, JobCommit(s, j), k) && !Expires(s, JobFail(s, j), k)
    ensures CanFinish(s, j) ==> !Expires(s, JobDone(s, j), k)
  {
  }

  lemma GapperSpares(s: State, g: Gapper, saved: bool, m: Timer, k: Key)
    requires k in s.table.tasks
    ensures g in s.pool.gappers && !g.marked ==> !Expires(s, GapperMark(s, g, saved), k)
    ensures g in s.pool.gappers && g.marked ==> !Expires(s, GapperDone(s, g), k)
    ensures m in s.pool.timers ==> !Expires(s, TimerEnd(s, m), k)
  {
  }

  /** A sweep takes a preloaded task for available, whatever the playlist says. */
  lemma SweepSpares(s: State, ready: seq<Ref>, k: Key)
    requires CanSweep(s, ready) && k in s.table.tasks && s.table.tasks[k].preloaded
    ensures !Expires(s, Acquisition.Sweep(s, ready), k)
  {
  }

  lemma DiscoverSpares(s: State, k: Key)
    requires CanDiscover(s) && k in s.table.tasks
    ensures !Expires(s, DiscoverNext(s), k)
  {
  }

  lemma EndListExpires(s: State, requeued: seq<Ref>, k: Key)
    requires CanEnd(s, requeued) && k in s.table.tasks
    ensures Expires(s, EndList(s, requeued), k) <==> EndsWaiting(s, AEndList(requeued), k)
  {
  }

  lemma WorkerExpires(s: State, a: Action, t: State, k: Key)
    requires O.Inv(s) && Step(s, a, t) && O.OfWorker(a) && k in s.table.tasks
    ensures Expires(s, t, k) <==> s.table.tasks[k].phase != GapCommitting && (WaitsTooLate(s, a, k) || FailsForGood(s, a, k))
  {
    if a.AAwait? { AwaitExpires(s, a.worker, k); }
    else if a.ALeave? { LeaveExpires(s, a.worker, a.saved, k); }
    else if a.AFetchEnd? { FetchSpares(s, a.worker, a.fetched, k); }
    else if a.ASubmitEnd? { SubmitSpares(s, a.worker, a.admitted, 0, k); }
    else if a.ARefreshEnd? { SubmitSpares(s, a.worker, Accepted, a.gen, k); }
    else if a.AMarkPersisting? || a.ARefreshFail? { SubmitSpares(s, a.worker, Accepted, 0, k); }
    else if a.AGapMark? { GapSpares(s, a.worker, a.saved, k); }
    else if a.AGapDone? { GapSpares(s, a.worker, true, k); }
    else if a.ATake? { TakeSpares(s, a.worker, k); }
    else { EnterSpares(s, a.worker, k); }
  }

  lemma GoroutineSpares(s: State, a: Action, t: State, k: Key)
    requires Step(s, a, t) && O.OfTable(a) && !a.AEndList? && !a.ASweep? && !a.ADiscoverNext? && k in s.table.tasks
    ensures !Expires(s, t, k)
  {
    if a.AJobCommit? || a.AJobFail? || a.AJobDone? { JobSpares(s, a.job, k); }
    else if a.AGapperMark? { GapperSpares(s, a.gapper, a.saved, Timer(Ref(k, 0), 0), k); }
    else if a.AGapperDone? { GapperSpares(s, a.gapper, true, Timer(Ref(k, 0), 0), k); }
    else if a.ATimerEnd? { GapperSpares(s, Gapper(Ref(k, 0), false), true, a.timer, k); }
  }

  lemma TableExpires(s: State, a: Action, t: State, k: Key)
    requires Step(s, a, t) && O.OfTable(a) && k in s.table.tasks && s.table.tasks[k].preloaded
    ensures Expires(s, t, k) <==> EndsWaiting(s, a, k)
  {
    if a.AEndList? { EndListExpires(s, a.requeued, k); }
    else if a.ASweep? { SweepSpares(s, a.ready, k); }
    else if a.ADiscoverNext? { DiscoverSpares(s, k); }
    else { GoroutineSpares(s, a, t, k); }
  }

  /** Exactly when a preloaded task becomes a gap, over every step of the scheduler: the
      stream ends while it waits for a refreshed playlist that has not offered it, or has
      ended when it is put back to wait for one, or its own download failed for good. */
  lemma PreloadedExpiresIff(s: State, a: Action, t: State, k: Key)
    requires O.Inv(s) && Step(s, a, t) && k in s.table.tasks && s.table.tasks[k].preloaded && s.table.tasks[k].phase != GapCommitting
    ensures Expires(s, t, k) <==> EndsWaiting(s, a, k) || WaitsTooLate(s, a, k) || FailsForGood(s, a, k)
  {
    if O.OfWorker(a) { WorkerExpires(s, a, t, k); }
    else if O.OfTable(a) { TableExpires(s, a, t, k); }
    else if O.OfEnvironment(a) { O.EnvironmentTouchesNothing(s, a, t); }
    else { O.PollerTouchesNothing(s, a, t); }
  }
}
