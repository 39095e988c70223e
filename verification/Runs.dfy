/** Concrete runs: two that lose an observed object for good, and two in which the
    playlist of a superseded source still writes to the root. */
module Runs {
  import opened Archive
  import opened TaskTable
  import opened Acquisition
  import A = Accounting
  import E = EndOfStream
  import L = NoLoss
  import O = Ownership
  import T = Lifetimes

  lemma Extend(states: seq<State>, actions: seq<Action>, a: Action, t: State) returns (ss: seq<State>, bs: seq<Action>)
    requires Run(states, actions) && Step(states[|actions|], a, t)
    ensures Run(ss, bs) && ss == states + [t] && bs == actions + [a] && ss[0] == states[0] && ss[|bs|] == t
  {
    ss, bs := states + [t], actions + [a];
    forall i | 0 <= i < |bs| ensures Step(ss[i], bs[i], ss[i + 1]) {
      if i < |actions| { assert Step(states[i], actions[i], states[i + 1]); }
    }
  }

  // The first playlist --------------------------------------------------------------------------

  ghost function OneIdle(): Pool { Pool(multiset{Idle(false)}, multiset{}, multiset{}, multiset{}) }

  const EMPTY: Table := Table(map[], [], 1, 1, 0, false)

  /** A ledger of epoch 0 that has seen sequences up to `last` and knows nothing else. */
  ghost function Seen(last: Uint64): A.Ledger { A.Ledger(0, true, last, iset{}, iset{}, iset{}) }

  /** A new scheduler on a new recording. */
  ghost function Start(): State {
    State(EMPTY, Clock(false, 0, false, 0), 0, OneIdle(), Rest,
      Book(A.Ledger(0, false, 0, iset{}, iset{}, iset{}), Recording, map[], iset{}, []), 0, 0, false, false, false)
  }

  /** The scheduler at work on its first source. */
  ghost function Working(t: Table, pool: Pool, poll: Poll, ledger: A.Ledger, lo: Uint64, metadata: nat): State {
    State(t, Clock(true, 0, false, 0), 0, pool, poll,
      Book(ledger, Recording, map[0 := Range(lo, ledger.last)], iset{}, []), 0, metadata, false, false, false)
  }

  predicate Plain(playlist: seq<MediaSegment>) {
    playlist != [] && A.Consecutive(playlist) && forall i | 0 <= i < |playlist| :: !playlist[i].gap
  }

  lemma FirstObservation(playlist: seq<MediaSegment>)
    requires Plain(playlist)
    ensures A.Observe(Start().book.ledger, playlist, {}, false) == Some(Seen(A.MaxSequence(playlist)))
  {
    var l := Start().book.ledger;
    forall k ensures !A.Missing(l, playlist, {}, k) {}
    assert A.ObserveInEpoch(l, playlist, {}).gapped == iset{};
    assert A.ObserveInEpoch(l, playlist, {}).pending == iset{};
  }

  ghost function Observation(playlist: seq<MediaSegment>): State
    requires playlist != []
  {
    Working(EMPTY, OneIdle(), Observed(0, playlist, false, 0), Seen(A.MaxSequence(playlist)), A.MinSequence(playlist), 0)
  }

  lemma Observes(playlist: seq<MediaSegment>) returns (states: seq<State>, actions: seq<Action>)
    requires Plain(playlist)
    ensures Run(states, actions) && T.Starts(states[0]) && states[|actions|] == Observation(playlist)
  {
    var begun := Begin(Start(), playlist, false, 0);
    var guarded := Guard(begun);
    FirstObservation(playlist);
    assert guarded.poll.protected == {};
    assert Widen(guarded.book, 0, playlist) == map[0 := Range(A.MinSequence(playlist), A.MaxSequence(playlist))];
    states, actions := Extend([Start()], [], ABegin(playlist, false, 0), begun);
    states, actions := Extend(states, actions, AGuard, guarded);
    states, actions := Extend(states, actions, AObserveRoot(false), Observation(playlist));
  }

  ghost function Discovery(playlist: seq<MediaSegment>): State
    requires playlist != []
  {
    Working(EMPTY, OneIdle(), Discovering(0, playlist, false, 0, 0), Seen(A.MaxSequence(playlist)), A.MinSequence(playlist), 1)
  }

  lemma SweepsNothing(s: State)
    requires s.poll.Sweeping? && s.poll.playlist != [] && s.table == EMPTY && s.pool == OneIdle()
    ensures CanSweep(s, []) && TaskTable.Sweep(map[], s.poll.epoch, s.poll.playlist) == map[]
    ensures s.pool.gappers + GappersOf(Expired(map[], map[])) == multiset{}
  {
    assert TaskTable.Sweep(map[], s.poll.epoch, s.poll.playlist).Keys == {};
    assert Expired(map[], map[]) == {};
  }

  lemma StartsDiscovery(playlist: seq<MediaSegment>) returns (states: seq<State>, actions: seq<Action>)
    requires Plain(playlist)
    ensures Run(states, actions) && T.Starts(states[0]) && states[|actions|] == Discovery(playlist)
  {
    states, actions := Observes(playlist);
    var queued := QueueRoot(Observation(playlist), true);
    SweepsNothing(queued);
    states, actions := Extend(states, actions, AQueueRoot(true), queued);
    states, actions := Extend(states, actions, ASweep([]), Discovery(playlist));
  }

  // Media that is lost ----------------------------------------------------------------------------

  const FIVE := MediaSegment(5, 0, NoUri, None, false)

  /** A stopping run with nothing left to do. */
  ghost predicate Quiescent(s: State) {
    && s.table == EMPTY && s.pool == OneIdle() && s.poll == Rest && s.snapshots == 0 && s.metadata == 0
    && s.stopping && s.canceled && !s.fatal && s.book.root == Recording && s.book.ledger.pending == iset{}
  }

  lemma ClosingSteps(s: State)
    requires Quiescent(s)
    ensures CanExit(CloseTable(s), Idle(false)) && Joined(Exit(CloseTable(s), Idle(false)))
    ensures var e := Exit(CloseTable(s), Idle(false));
      && Settle(e).book.ledger == s.book.ledger && CanStop(Settle(e)) && Stop(Settle(e)).book.ledger == s.book.ledger
  {
    var e := Exit(CloseTable(s), Idle(false));
    assert e.pool == Pool(multiset{}, multiset{}, multiset{}, multiset{});
    assert Settle(e).book.ledger.pending == iset{};
    assert Stop(Settle(e)).book.ledger.gapped == s.book.ledger.gapped;
  }

  lemma Closes(past: seq<State>, before: seq<Action>) returns (states: seq<State>, actions: seq<Action>)
    requires Run(past, before) && Quiescent(past[|before|])
    ensures Run(states, actions) && states[0] == past[0]
    ensures states[|actions|].book == past[|before|].book.(root := Stopped)
  {
    var s := past[|before|];
    ClosingSteps(s);
    var e := Exit(CloseTable(s), Idle(false));
    states, actions := Extend(past, before, ACloseTable, CloseTable(s));
    states, actions := Extend(states, actions, AExit(Idle(false)), e);
    states, actions := Extend(states, actions, ASettle, Settle(e));
    states, actions := Extend(states, actions, AStop, Stop(Settle(e)));
  }

  /** The recording has ended, object 5 of epoch 0 was observed, and nothing is known about it. */
  ghost predicate FiveIsLost(b: Book) {
    b.root == Stopped && L.InRange(b.ranges, Key(0, 5)) && !Recorded(b.ledger, Key(0, 5))
  }

  lemma FiveSpan()
    ensures Plain([FIVE]) && A.MinSequence([FIVE]) == 5 && A.MaxSequence([FIVE]) == 5
  {
  }

  /** A stop between the observation of a playlist and the queueing of its root abandons
      what the playlist offers: the recording ends Stopped, and an observed object is
      neither archived nor a gap. */
  lemma StopBeforeDiscoveryLoses() returns (states: seq<State>, actions: seq<Action>)
    ensures Run(states, actions) && T.Starts(states[0]) && FiveIsLost(states[|actions|].book)
  {
    FiveSpan();
    states, actions := Observes([FIVE]);
    var stopping := Cancel(Observation([FIVE]));
    states, actions := Extend(states, actions, ACancel, stopping);
    states, actions := Extend(states, actions, AQueueRoot(false), QueueRoot(stopping, false));
    states, actions := Closes(states, actions);
  }

  /** So does a refresh of the source between the observation and the end of discovery,
      if the new source does not offer the object again. */
  lemma RefreshBeforeDiscoveryLoses() returns (states: seq<State>, actions: seq<Action>)
    ensures Run(states, actions) && T.Starts(states[0]) && FiveIsLost(states[|actions|].book)
  {
    FiveSpan();
    states, actions := Observes([FIVE]);
    var queued := QueueRoot(Observation([FIVE]), true);
    var refreshed := RefreshCommit(queued);
    SweepsNothing(refreshed);
    var swept := Acquisition.Sweep(refreshed, []);
    states, actions := Extend(states, actions, AQueueRoot(true), queued);
    states, actions := Extend(states, actions, ARefreshCommit, refreshed);
    states, actions := Extend(states, actions, ASweep([]), swept);
    states, actions := Extend(states, actions, AMetadataDone(true), MetadataDone(swept, true));
    states, actions := Extend(states, actions, ACancel, Cancel(MetadataDone(swept, true)));
    states, actions := Closes(states, actions);
  }

  // Superseded playlists that write ------------------------------------------------------------------

  /** In the last step, a playlist whose source has been replaced changes the root. */
  ghost predicate EndsWithSupersededWrite(states: seq<State>, actions: seq<Action>) {
    && Run(states, actions) && |actions| > 0
    && E.Superseded(states[|actions| - 1]) && E.WritesBy(states[|actions| - 1], actions[|actions| - 1], states[|actions|])
  }

  /** From any moment at which discovery waits for room, a refresh and then a stop make
      the playlist of the old source write its inventory. */
  lemma BlockedWrites(past: seq<State>, before: seq<Action>) returns (states: seq<State>, actions: seq<Action>)
    requires Run(past, before)
    requires var s := past[|before|];
      && s.poll.Waiting? && s.poll.gen == s.media && s.poll.at < |s.poll.playlist| && !s.poll.playlist[s.poll.at].gap
      && Key(s.poll.epoch, s.poll.playlist[s.poll.at].sequence) !in s.book.ledger.captured + s.book.ledger.pending
    ensures EndsWithSupersededWrite(states, actions) && states[0] == past[0]
    ensures var p := past[|before|].poll; Key(p.epoch, p.playlist[p.at].sequence) in states[|actions|].book.ledger.pending
  {
    var s := past[|before|];
    var t := Cancel(RefreshCommit(s));
    states, actions := Extend(past, before, ARefreshCommit, RefreshCommit(s));
    states, actions := Extend(states, actions, ACancel, t);
    InventoryWrites(t);
    states, actions := Extend(states, actions, AGiveUp(true), GiveUp(t, true));
  }

  lemma InventoryWrites(t: State)
    requires t.poll.Waiting? && t.canceled && t.poll.at < |t.poll.playlist| && !t.poll.playlist[t.poll.at].gap
    requires Key(t.poll.epoch, t.poll.playlist[t.poll.at].sequence) !in t.book.ledger.captured + t.book.ledger.pending
    ensures E.WritesBy(t, AGiveUp(true), GiveUp(t, true))
    ensures Key(t.poll.epoch, t.poll.playlist[t.poll.at].sequence) in GiveUp(t, true).book.ledger.pending
  {
    assert E.InventoryDue(t);
    E.InventoryIsWritten(t);
    assert t.poll.playlist[t.poll.at..][0] == t.poll.playlist[t.poll.at];
  }

  /** From any moment at which a gap commit has begun, a refresh makes the playlist of the
      old source write that gap. */
  lemma GapWrites(past: seq<State>, before: seq<Action>, g: Gapper) returns (states: seq<State>, actions: seq<Action>)
    requires Run(past, before)
    requires var s := past[|before|];
      && E.InHand(s.poll) == Some(s.media) && g in s.pool.gappers && !g.marked
      && g.ref.key !in s.book.ledger.captured + s.book.ledger.gapped
    ensures EndsWithSupersededWrite(states, actions) && states[0] == past[0]
    ensures g.ref.key in states[|actions|].book.ledger.gapped
  {
    var t := RefreshCommit(past[|before|]);
    states, actions := Extend(past, before, ARefreshCommit, t);
    E.GapWritesIff(t, g);
    states, actions := Extend(states, actions, AGapperMark(g, true), GapperMark(t, g, true));
  }

  const SIX := MediaSegment(6, 0, NoUri, None, false)

  const HELD: Task := Task(1, true, true, 0, 0, false, 0, 0, Queued, 0, false)

  const HOLDING: Table := Table(map[Key(0, 5) := HELD], [Ref(Key(0, 5), 1)], 2, 1, 0, false)

  /** Object 5 has a task, and no worker has taken it. */
  lemma HoldsFive() returns (states: seq<State>, actions: seq<Action>)
    ensures Run(states, actions) && T.Starts(states[0])
    ensures states[|actions|] == Working(HOLDING, OneIdle(), Rest, Seen(5), 5, 1)
  {
    FiveSpan();
    states, actions := StartsDiscovery([FIVE]);
    var held := Working(HOLDING, OneIdle(), Discovering(0, [FIVE], false, 0, 1), Seen(5), 5, 1);
    assert TaskTable.Discover(EMPTY, Key(0, 5), 0) == Admitted(HOLDING);
    states, actions := Extend(states, actions, ADiscoverNext, held);
    states, actions := Extend(states, actions, AFinishDiscovery, Working(HOLDING, OneIdle(), Rest, Seen(5), 5, 1));
  }

  /** The next playlist starts after object 5. */
  lemma SixObservation()
    ensures Plain([SIX]) && A.MinSequence([SIX]) == 6 && A.MaxSequence([SIX]) == 6
    ensures A.Observe(Seen(5), [SIX], {Key(0, 5)}, false) == Some(Seen(6))
  {
    forall k ensures !A.Missing(Seen(5), [SIX], {Key(0, 5)}, k) {}
    assert A.ObserveInEpoch(Seen(5), [SIX], {Key(0, 5)}).gapped == iset{};
    assert A.ObserveInEpoch(Seen(5), [SIX], {Key(0, 5)}).pending == iset{};
  }

  ghost function AtSix(poll: Poll, last: Uint64, metadata: nat): State { Working(HOLDING, OneIdle(), poll, Seen(last), 5, metadata) }

  lemma SixBegins()
    ensures var s := AtSix(Rest, 5, 1);
      CanBegin(s, [SIX]) && Begin(s, [SIX], false, 0) == AtSix(Started([SIX], false, 0), 5, 1)
    ensures Guard(AtSix(Started([SIX], false, 0), 5, 1)) == AtSix(Guarded([SIX], false, 0, {Key(0, 5)}), 5, 1)
  {
    assert HOLDING.tasks.Keys == {Key(0, 5)};
  }

  lemma SixIsObserved()
    ensures var s := AtSix(Guarded([SIX], false, 0, {Key(0, 5)}), 5, 1);
      ObserveRoot(s, false) == AtSix(Observed(0, [SIX], false, 0), 6, 1)
    ensures QueueRoot(AtSix(Observed(0, [SIX], false, 0), 6, 1), true) == AtSix(Sweeping(0, [SIX], false, 0), 6, 2)
  {
    SixObservation();
    assert Widen(AtSix(Rest, 5, 1).book, 0, [SIX]) == map[0 := Range(5, 6)];
  }

  lemma BeginsSix() returns (states: seq<State>, actions: seq<Action>)
    ensures Run(states, actions) && T.Starts(states[0])
    ensures states[|actions|] == AtSix(Guarded([SIX], false, 0, {Key(0, 5)}), 5, 1)
  {
    states, actions := HoldsFive();
    SixBegins();
    states, actions := Extend(states, actions, ABegin([SIX], false, 0), AtSix(Started([SIX], false, 0), 5, 1));
    states, actions := Extend(states, actions, AGuard, AtSix(Guarded([SIX], false, 0, {Key(0, 5)}), 5, 1));
  }

  lemma ObservesSix() returns (states: seq<State>, actions: seq<Action>)
    ensures Run(states, actions) && T.Starts(states[0]) && states[|actions|] == AtSix(Sweeping(0, [SIX], false, 0), 6, 2)
  {
    states, actions := BeginsSix();
    SixIsObserved();
    states, actions := Extend(states, actions, AObserveRoot(false), AtSix(Observed(0, [SIX], false, 0), 6, 1));
    states, actions := Extend(states, actions, AQueueRoot(true), AtSix(Sweeping(0, [SIX], false, 0), 6, 2));
  }

  const LEAVING: Table :=
    Table(map[Key(0, 5) := HELD.(available := false, token := 1, phase := GapCommitting)], [], 2, 1, 0, false)

  ghost function Expiring(): State {
    Working(LEAVING, OneIdle().(gappers := multiset{Gapper(Ref(Key(0, 5), 1), false)}), Discovering(0, [SIX], false, 0, 0), Seen(6), 5, 2)
  }

  lemma OneGapper(r: Ref)
    ensures multiset{} + GappersOf({r}) == multiset{Gapper(r, false)}
  {
    forall g ensures GappersOf({r})[g] == multiset{Gapper(r, false)}[g] {
      O.GappersOfCounts({r}, g);
    }
  }

  lemma FiveDeparts(s: State)
    requires s == AtSix(Sweeping(0, [SIX], false, 0), 6, 2)
    ensures CanSweep(s, []) && Acquisition.Sweep(s, []) == Expiring()
  {
    SixObservation();
    var tasks := TaskTable.Sweep(HOLDING.tasks, 0, [SIX]);
    assert Departs(Key(0, 5), HELD, 0, [SIX]);
    assert tasks == LEAVING.tasks;
    var k := Key(0, 5);
    assert k in HOLDING.tasks && k in tasks && Ref(k, HOLDING.tasks[k].ordinal) in Expired(HOLDING.tasks, tasks);
    assert Expired(HOLDING.tasks, tasks) == {Ref(k, 1)};
    OneGapper(Ref(Key(0, 5), 1));
  }

  /** A gap that a playlist has begun to commit is committed after a refresh as well:
      the gap commit does not check the generation. */
  lemma GapOutlivesItsPlaylist() returns (states: seq<State>, actions: seq<Action>)
    ensures EndsWithSupersededWrite(states, actions) && T.Starts(states[0])
    ensures Key(0, 5) in states[|actions|].book.ledger.gapped
  {
    states, actions := ObservesSix();
    FiveDeparts(states[|actions|]);
    states, actions := Extend(states, actions, ASweep([]), Expiring());
    states, actions := GapWrites(states, actions, Gapper(Ref(Key(0, 5), 1), false));
  }

  /** A playlist of more entries than the table has room for. */
  predicate Crowd(p: seq<MediaSegment>) {
    |p| == MAX_TASKS + 1 && forall i | 0 <= i < |p| :: p[i] == MediaSegment(i, 0, NoUri, None, false)
  }

  lemma CrowdSpan(p: seq<MediaSegment>)
    requires Crowd(p)
    ensures Plain(p) && A.MinSequence(p) == 0 && A.MaxSequence(p) == MAX_TASKS
  {
    assert p[0].sequence == 0 && p[MAX_TASKS].sequence == MAX_TASKS;
  }

  /** The first n objects have tasks. */
  function FirstTasks(n: nat): (m: map<Key, Task>)
    requires n <= MAX_TASKS
    ensures |m| == n && forall k :: k in m <==> k.epoch == 0 && k.sequence < n
  {
    if n == 0 then map[]
    else
      var rest := FirstTasks(n - 1);
      assert rest[Key(0, n - 1) := NewTask(n, 0)].Keys == rest.Keys + {Key(0, n - 1)};
      rest[Key(0, n - 1) := NewTask(n, 0)]
  }

  function FirstRefs(n: nat): seq<Ref>
    requires n <= MAX_TASKS
  {
    if n == 0 then [] else FirstRefs(n - 1) + [Ref(Key(0, n - 1), n)]
  }

  function Crammed(n: nat): Table
    requires n <= MAX_TASKS
  {
    Table(FirstTasks(n), FirstRefs(n), n + 1, 1, 0, false)
  }

  ghost function Crowding(p: seq<MediaSegment>, n: nat): State
    requires n <= MAX_TASKS
  {
    Working(Crammed(n), OneIdle(), Discovering(0, p, false, 0, n), Seen(MAX_TASKS), 0, 1)
  }

  lemma AdmitsTable(n: nat)
    requires n < MAX_TASKS
    ensures TaskTable.Discover(Crammed(n), Key(0, n), 0) == Admitted(Crammed(n + 1))
  {
    var t, u, k := Crammed(n), Crammed(n + 1), Key(0, n);
    assert u.tasks == t.tasks[k := NewTask(n + 1, 0)];
    assert u.ready == t.ready + [Ref(k, n + 1)];
  }

  lemma AdmitsAnother(p: seq<MediaSegment>, n: nat)
    requires Crowd(p) && n < MAX_TASKS
    ensures CanDiscover(Crowding(p, n)) && DiscoverNext(Crowding(p, n)) == Crowding(p, n + 1)
  {
    assert KeyInHand(Crowding(p, n)) == Key(0, n);
    AdmitsTable(n);
  }

  lemma {:induction false} Crowds(p: seq<MediaSegment>, n: nat) returns (states: seq<State>, actions: seq<Action>)
    requires Crowd(p) && n <= MAX_TASKS
    ensures Run(states, actions) && T.Starts(states[0]) && states[|actions|] == Crowding(p, n)
  {
    if n == 0 {
      CrowdSpan(p);
      states, actions := StartsDiscovery(p);
    } else {
      states, actions := Crowds(p, n - 1);
      AdmitsAnother(p, n - 1);
      states, actions := Extend(states, actions, ADiscoverNext, Crowding(p, n));
    }
  }

  lemma FullWaits(s: State)
    requires s.poll.Discovering? && s.poll.index < |s.poll.playlist| && s.pool.gappers == multiset{} && !s.table.closed
    requires Checked(s.clock, s.media, s.poll.gen) == s.clock && Current(s.clock, s.media, s.poll.gen)
    requires !s.poll.playlist[s.poll.index].gap && !Settled(s.book.ledger, KeyInHand(s))
    requires TaskTable.Discover(s.table, KeyInHand(s), s.poll.gen) == Full
    ensures CanDiscover(s)
    ensures DiscoverNext(s) == s.(poll := Waiting(s.poll.epoch, s.poll.playlist, s.poll.endList, s.poll.gen, s.poll.index))
  {
  }

  lemma CrammedIsFull()
    ensures TaskTable.Discover(Crammed(MAX_TASKS), Key(0, MAX_TASKS), 0) == Full
  {
  }

  ghost function Crowded(p: seq<MediaSegment>): State {
    Crowding(p, MAX_TASKS).(poll := Waiting(0, p, false, 0, MAX_TASKS))
  }

  lemma TableIsFull(p: seq<MediaSegment>)
    requires Crowd(p)
    ensures CanDiscover(Crowding(p, MAX_TASKS)) && DiscoverNext(Crowding(p, MAX_TASKS)) == Crowded(p)
  {
    CrammedIsFull();
    assert KeyInHand(Crowding(p, MAX_TASKS)) == Key(0, MAX_TASKS);
    FullWaits(Crowding(p, MAX_TASKS));
  }

  lemma FillsTheTable(p: seq<MediaSegment>) returns (states: seq<State>, actions: seq<Action>)
    requires Crowd(p)
    ensures Run(states, actions) && T.Starts(states[0]) && states[|actions|] == Crowded(p)
  {
    states, actions := Crowds(p, MAX_TASKS);
    TableIsFull(p);
    states, actions := Extend(states, actions, ADiscoverNext, Crowded(p));
  }

  /** Discovery that waits for room is cancelled after a refresh: what its playlist has
      left becomes pending although the source was replaced. */
  lemma BlockedPlaylistWrites() returns (states: seq<State>, actions: seq<Action>)
    ensures EndsWithSupersededWrite(states, actions) && T.Starts(states[0])
    ensures Key(0, MAX_TASKS) in states[|actions|].book.ledger.pending
  {
    var p := seq(MAX_TASKS + 1, i requires 0 <= i <= MAX_TASKS => MediaSegment(i, 0, NoUri, None, false));
    states, actions := FillsTheTable(p);
    states, actions := BlockedWrites(states, actions);
  }
}
