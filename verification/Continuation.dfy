/** The object a handover continues with. The target's preflight picks it without
    touching anything; the running scheduler gets to it by observing the playlist and
    discovering its entries one by one. Both name the same object. */
module Continuation {
  import opened Archive
  import opened TaskTable
  import opened Acquisition
  import A = Accounting
  import R = Recording

  /** Discovery, step by step, until the table holds a task or the playlist ends. */
  ghost function UntilFirstTask(s: State): State
    requires s.poll.Discovering?
    decreases |s.poll.playlist| - s.poll.index
  {
    if s.table.tasks != map[] || !CanDiscover(s) || !DiscoverNext(s).poll.Discovering? || DiscoverNext(s).poll.index <= s.poll.index
      || DiscoverNext(s).poll.playlist != s.poll.playlist then s
    else UntilFirstTask(DiscoverNext(s))
  }

  /** An idle scheduler whose discovery works on the epoch of its root. */
  ghost predicate Discovers(s: State) {
    && s.poll.Discovering? && s.poll.epoch == s.book.ledger.epoch && s.pool.gappers == multiset{}
    && s.table.tasks == map[] && !s.table.closed && 0 < s.table.next < MAX_UINT64 && Current(s.clock, s.media, s.poll.gen)
  }

  function TaskFor(epoch: Uint64, next: Option<MediaSegment>): set<Key> {
    if next == None then {} else {Key(epoch, next.value.sequence)}
  }

  /** One entry, of which discovery knows nothing yet. */
  lemma EntryDiscovered(s: State)
    requires Discovers(s) && s.poll.index < |s.poll.playlist|
    ensures var t := DiscoverNext(s); var entry := s.poll.playlist[s.poll.index];
      && t.poll == s.poll.(index := s.poll.index + 1) && t.book == s.book
      && (if entry.gap || Settled(s.book.ledger, KeyInHand(s)) then Discovers(t) else t.table.tasks.Keys == {KeyInHand(s)})
  {
    if !s.poll.playlist[s.poll.index].gap && !Settled(s.book.ledger, KeyInHand(s)) {
      assert TaskTable.Discover(s.table, KeyInHand(s), s.poll.gen) ==
        Admitted(Enqueue(s.table.(next := s.table.next + 1), KeyInHand(s), NewTask(s.table.next, s.poll.gen)));
    }
  }

  lemma {:induction false} FirstTaskIsFresh(s: State)
    requires Discovers(s) && s.poll.index <= |s.poll.playlist|
    ensures UntilFirstTask(s).table.tasks.Keys == TaskFor(s.poll.epoch, A.FirstFresh(s.book.ledger, s.poll.playlist[s.poll.index..]))
    decreases |s.poll.playlist| - s.poll.index
  {
    if s.poll.index < |s.poll.playlist| {
      EntryDiscovered(s);
      var t, rest := DiscoverNext(s), s.poll.playlist[s.poll.index..];
      assert rest[0] == s.poll.playlist[s.poll.index] && rest[1..] == s.poll.playlist[s.poll.index + 1..];
      if s.poll.playlist[s.poll.index].gap || Settled(s.book.ledger, KeyInHand(s)) {
        FirstTaskIsFresh(t);
      }
    }
  }

  /** The poller's way from a playlist in hand to the first task: observe, queue the root,
      sweep, discover. */
  ghost function FirstTask(s: State, changed: bool): State
    requires s.poll.Guarded? && s.poll.playlist != []
  {
    var observed := ObserveRoot(s, changed);
    if !observed.poll.Observed? then observed
    else
      var queued := QueueRoot(observed, true);
      if !queued.poll.Sweeping? || !CanSweep(queued, []) then queued
      else
        var swept := Acquisition.Sweep(queued, []);
        if swept.poll.Discovering? then UntilFirstTask(swept) else swept
  }

  /** A scheduler with an empty table and a playlist of the current source in hand. */
  ghost predicate Idle(s: State) {
    && s.poll.Guarded? && s.poll.playlist != [] && A.Consecutive(s.poll.playlist) && s.poll.protected == {}
    && s.table.tasks == map[] && s.table.ready == [] && !s.table.closed && 0 < s.table.next < MAX_UINT64
    && s.pool.gappers == multiset{} && s.media == s.poll.gen && Current(s.clock, s.media, s.poll.gen)
  }

  lemma SweepOfNothing(s: State)
    requires s.poll.Sweeping? && s.poll.playlist != [] && s.table.tasks == map[] && s.table.ready == [] && s.pool.gappers == multiset{}
    requires Current(s.clock, s.media, s.poll.gen)
    ensures CanSweep(s, [])
    ensures var t := Acquisition.Sweep(s, []);
      && t.poll == Discovering(s.poll.epoch, s.poll.playlist, s.poll.endList, s.poll.gen, 0)
      && t.table == s.table && t.pool == s.pool && t.book == s.book && t.media == s.media && Current(t.clock, t.media, s.poll.gen)
  {
    assert TaskTable.Sweep(s.table.tasks, s.poll.epoch, s.poll.playlist) == map[];
    assert Expired(s.table.tasks, map[]) == {};
    assert GappersOf({}) == multiset{};
  }

  lemma SweepsToDiscovery(s: State, changed: bool)
    requires Idle(s) && A.Observe(s.book.ledger, s.poll.playlist, {}, changed).Some?
    ensures var m := A.Observe(s.book.ledger, s.poll.playlist, {}, changed).value;
      FirstTask(s, changed).table.tasks.Keys == TaskFor(m.epoch, A.FirstFresh(m, s.poll.playlist))
  {
    var queued := QueueRoot(ObserveRoot(s, changed), true);
    SweepOfNothing(queued);
    var swept := Acquisition.Sweep(queued, []);
    assert swept.poll.playlist[0..] == s.poll.playlist;
    FirstTaskIsFresh(swept);
  }

  /** The preflight's candidate is the first object that the scheduler gives a task, and
      there is none exactly when the scheduler finds nothing to do. The preflight applies
      its own reset test, the observer its own. */
  lemma PreflightIsFirstTask(s: State, segments: seq<Segment>)
    requires Idle(s)
    ensures var l, playlist := s.book.ledger, s.poll.playlist;
      var candidate := A.Preflight(l, playlist, R.SomeMatchChanged(segments, l.epoch, playlist));
      FirstTask(s, R.SomeIdentityChanged(segments, l.epoch, playlist)).table.tasks.Keys
      == if candidate == None then {} else {Key(candidate.value.0, candidate.value.1.sequence)}
  {
    var l, playlist := s.book.ledger, s.poll.playlist;
    var changed := R.SomeIdentityChanged(segments, l.epoch, playlist);
    R.ResetTestsAgree(segments, l.epoch, playlist);
    A.PreflightAgrees(l, playlist, changed);
    if A.Observe(l, playlist, {}, changed).Some? {
      SweepsToDiscovery(s, changed);
    }
  }
}
