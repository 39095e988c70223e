/** Where runs start, and how one scheduler lifetime follows another. */
module Lifetimes {
  import opened Archive
  import opened TaskTable
  import opened Acquisition
  import O = Ownership
  import L = NoLoss
  import E = EndOfStream
  import G = CommitLog

  /** newSegmentScheduler on a recording whose books are in order. */
  ghost predicate Starts(s: State) {
    && O.FreshTable(s.table, s.pool) && s.clock == Clock(false, 0, false, 0) && s.poll == Rest
    && s.snapshots == 0 && s.metadata == 0 && !s.stopping && !s.canceled && !s.fatal
    && s.book.root == Recording && s.book.log == []
    && (forall k | k in s.table.tasks :: k !in s.book.ledger.captured && k !in s.book.ledger.gapped)
  }

  /** The root remembers everything it was ever shown. */
  ghost predicate BooksBalance(b: Book) {
    && L.RangesOk(b)
    && (forall k | k in b.ledger.captured :: k !in b.ledger.gapped)
    && (forall k | L.InRange(b.ranges, k) :: k in b.ledger.captured || k in b.ledger.gapped || k in b.ledger.pending || k in b.dropped)
  }

  /** Every invariant holds at the start of a lifetime. */
  lemma StartIsSound(s: State, first: Uint64)
    requires Starts(s) && BooksBalance(s.book) && first <= s.table.next && forall k | k in s.table.tasks :: first <= s.table.tasks[k].ordinal
    ensures O.Inv(s) && L.BookInv(s) && E.ClockInv(s) && G.LogInv(s, s.book.ledger.captured, first)
  {
    O.FreshIsOwned(s.table, s.pool);
  }

  /** A drained and joined lifetime hands balanced books to the next one. */
  lemma LifetimesChain(s: State)
    requires L.BookInv(s) && Joined(s) && s.table.tasks == map[]
    ensures BooksBalance(s.book)
  {
    forall k | L.InRange(s.book.ranges, k)
      ensures k in s.book.ledger.captured || k in s.book.ledger.gapped || k in s.book.ledger.pending || k in s.book.dropped
    {
      assert L.Known(s, k);
    }
  }

  /** A pause that drained its scheduler leaves nothing behind: closing it then
      adds no pending entry and no gap. */
  lemma DrainedCloseAddsNothing(s: State)
    requires Joined(s) && s.table.tasks == map[]
    ensures Settle(s).book.ledger == s.book.ledger
  {
    assert Settle(s).book.ledger.pending == s.book.ledger.pending;
  }

  /** Without tasks nobody holds one: no ingest job, no gap commit, no worker at work. */
  ghost predicate Unheld(p: Pool) {
    p.jobs == multiset{} && p.gappers == multiset{} && forall w | w in p.crew && w.Busy? :: !O.Owning(w.stage)
  }

  lemma HeadIn(ready: seq<Ref>)
    ensures ready == [] || ready[0] in ready
  {
  }

  lemma NothingHeld(s: State)
    requires O.Inv(s) && s.table.tasks == map[]
    ensures Unheld(s.pool) && s.table.ready == []
  {
    assert forall j: Job :: O.Exclusive(s.table, s.pool, j.ref.key) ==> j !in s.pool.jobs;
    assert forall g: Gapper :: O.Exclusive(s.table, s.pool, g.ref.key) ==> g !in s.pool.gappers;
    assert forall j: Job :: j !in s.pool.jobs;
    assert forall g: Gapper :: g !in s.pool.gappers;
    forall w | w in s.pool.crew && w.Busy? ensures !O.Owning(w.stage) {
      assert O.Exclusive(s.table, s.pool, w.ref.key) && O.On(w, w.ref.key);
    }
    HeadIn(s.table.ready);
    assert forall r: Ref :: r !in s.table.ready;
    assert s.pool.jobs == multiset{} && s.pool.gappers == multiset{};
  }

  /** From the moment the scheduler is drained until its goroutines are joined, no
      step of theirs touches the recording: a pause adds no gap and no pending entry. */
  lemma DrainedStaysDrained(s: State, a: Action, t: State)
    requires O.Inv(s) && s.table.tasks == map[] && s.poll == Rest && Step(s, a, t) && !a.ABegin? && !a.AStop?
    ensures t.table.tasks == map[] && t.poll == Rest && t.book.ledger == s.book.ledger
  {
    NothingHeld(s);
    if O.OfWorker(a) {
      WorkerFindsNothing(s, a, t);
    } else if a.ATimerEnd? {
      TimerFindsNothing(s, a.timer);
    } else if a.ASettle? {
      DrainedCloseAddsNothing(s);
    } else if O.OfEnvironment(a) {
      O.EnvironmentTouchesNothing(s, a, t);
    }
  }

  /** Over any run from a drained scheduler, its close and the join included, as long as
      the poller begins no playlist and nobody ends the recording: the table stays empty
      and the recording stays as it was when the scheduler was drained. */
  lemma {:induction false} DrainedRunAddsNothing(states: seq<State>, actions: seq<Action>, i: nat)
    requires Run(states, actions) && O.Inv(states[0]) && states[0].table.tasks == map[] && states[0].poll == Rest && i < |states|
    requires forall j | 0 <= j < i :: !actions[j].ABegin? && !actions[j].AStop?
    ensures states[i].table.tasks == map[] && states[i].poll == Rest && states[i].book.ledger == states[0].book.ledger
  {
    if i > 0 {
      DrainedRunAddsNothing(states, actions, i - 1);
      DrainedAt(states, actions, i - 1);
      assert states[i - 1 + 1] == states[i];
    }
  }

  lemma DrainedAt(states: seq<State>, actions: seq<Action>, i: nat)
    requires Run(states, actions) && O.Inv(states[0]) && i < |actions| && !actions[i].ABegin? && !actions[i].AStop?
    requires states[i].table.tasks == map[] && states[i].poll == Rest
    ensures var t := states[i + 1]; t.table.tasks == map[] && t.poll == Rest && t.book.ledger == states[i].book.ledger
  {
    O.RunKeepsOwnership(states, actions, i);
    DrainedStaysDrained(states[i], actions[i], states[i + 1]);
  }

  ghost predicate Nothing(s: State, t: State) { t.table.tasks == map[] && t.poll == s.poll && t.book.ledger == s.book.ledger }

  lemma LeaveFindsNothing(s: State, w: Worker, saved: bool)
    requires s.table.tasks == map[]
    ensures CanLeave(s, w) ==> Nothing(s, Leave(s, w, saved))
    ensures At(s, w, Submitted) ==> Nothing(s, MarkPersisting(s, w))
  {
  }

  lemma WorkerFindsNothing(s: State, a: Action, t: State)
    requires Unheld(s.pool) && s.table.tasks == map[] && s.table.ready == [] && Step(s, a, t) && O.OfWorker(a)
    ensures Nothing(s, t)
  {
    if a.ALeave? { LeaveFindsNothing(s, a.worker, a.saved); }
    else if a.AMarkPersisting? { LeaveFindsNothing(s, a.worker, true); }
  }

  lemma TimerFindsNothing(s: State, m: Timer)
    requires s.table.tasks == map[] && m in s.pool.timers
    ensures var t := TimerEnd(s, m); t.table.tasks == map[] && t.poll == s.poll && t.book.ledger == s.book.ledger
  {
  }
}
