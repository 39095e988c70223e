/** segmentScheduler as the source has it: one mutable table under a mutex. Each
    method is one critical section and does what TaskTable says. */
module SegmentScheduler {
  import opened Archive
  import opened TaskTable
  import opened Departures
  import A = Accounting

  function InsertRef(r: Ref, s: seq<Ref>): (t: seq<Ref>)
    ensures |t| == |s| + 1 && forall x :: x in t <==> x == r || x in s
  {
    if s == [] || r.ordinal < s[0].ordinal then [r] + s
    else
      assert forall x :: x in s <==> x == s[0] || x in s[1..];
      [s[0]] + InsertRef(r, s[1..])
  }

  /** The library sort by ordinal. */
  function SortRefs(s: seq<Ref>): (t: seq<Ref>)
    ensures |t| == |s| && forall x :: x in t <==> x in s
  {
    if s == [] then []
    else
      assert forall x :: x in s <==> x == s[0] || x in s[1..];
      InsertRef(s[0], SortRefs(s[1..]))
  }

  predicate Distinct(s: seq<Ref>) {
    forall i, j | 0 <= i < j < |s| :: s[i] != s[j]
  }

  predicate LeadsAll(x: Ref, rest: seq<Ref>) { forall y | y in rest :: x.ordinal <= y.ordinal && x != y }

  lemma {:induction false} ConsSorts(x: Ref, rest: seq<Ref>)
    requires InOrdinalOrder(rest) && Distinct(rest) && LeadsAll(x, rest)
    ensures InOrdinalOrder([x] + rest) && Distinct([x] + rest)
  {
    assert forall i | 0 <= i < |rest| :: rest[i] in rest;
  }

  lemma {:induction false} HeadLeads(s: seq<Ref>)
    requires InOrdinalOrder(s) && Distinct(s) && s != []
    ensures InOrdinalOrder(s[1..]) && Distinct(s[1..]) && LeadsAll(s[0], s[1..])
  {
  }

  lemma {:induction false} InsertSorts(r: Ref, s: seq<Ref>)
    requires InOrdinalOrder(s) && Distinct(s) && r !in s
    ensures InOrdinalOrder(InsertRef(r, s)) && Distinct(InsertRef(r, s))
  {
    if s != [] {
      HeadLeads(s);
      if s[0].ordinal <= r.ordinal {
        InsertSorts(r, s[1..]);
        ConsSorts(s[0], InsertRef(r, s[1..]));
      } else {
        assert forall y | y in s :: y == s[0] || y in s[1..];
        ConsSorts(r, s);
      }
    }
  }

  lemma {:induction false} SortSorts(s: seq<Ref>)
    requires Distinct(s)
    ensures InOrdinalOrder(SortRefs(s)) && Distinct(SortRefs(s))
  {
    if s != [] {
      assert s[0] !in s[1..];
      SortSorts(s[1..]);
      InsertSorts(s[0], SortRefs(s[1..]));
    }
  }

  /** The sweep has done the tasks outside `rest`, and `expired` are those that became gaps. */
  predicate Sweeping(before: map<Key, Task>, tasks: map<Key, Task>, rest: set<Key>, epoch: Uint64, playlist: seq<MediaSegment>)
    requires playlist != []
  {
    && rest <= before.Keys && tasks.Keys == before.Keys
    && forall k | k in before :: tasks[k] == if k in rest then before[k] else SweepTask(k, before[k], epoch, playlist)
  }

  ghost predicate SweptOutside(before: map<Key, Task>, tasks: map<Key, Task>, rest: set<Key>, expired: set<Ref>, epoch: Uint64, playlist: seq<MediaSegment>)
    requires playlist != []
  {
    && Sweeping(before, tasks, rest, epoch, playlist)
    && forall r :: r in expired <==> Live(before, r) && r.key !in rest && BecomesGap(before, tasks, r.key)
  }

  lemma SweptOneMore(before: map<Key, Task>, tasks: map<Key, Task>, rest: set<Key>, expired: set<Ref>, k: Key, task: Task, expires: bool,
                     epoch: Uint64, playlist: seq<MediaSegment>)
    requires playlist != [] && SweptOutside(before, tasks, rest, expired, epoch, playlist) && k in rest
    requires task == SweepTask(k, before[k], epoch, playlist)
    requires expires <==> before[k].phase != GapCommitting && task.phase == GapCommitting
    ensures SweptOutside(before, tasks[k := task], rest - {k},
              if expires then expired + {Ref(k, before[k].ordinal)} else expired, epoch, playlist)
  {
    var more, after := if expires then expired + {Ref(k, before[k].ordinal)} else expired, tasks[k := task];
    forall r ensures r in more <==> Live(before, r) && r.key !in rest - {k} && BecomesGap(before, after, r.key) {
      if r.key != k {
        assert BecomesGap(before, after, r.key) <==> BecomesGap(before, tasks, r.key);
      }
    }
  }

  /** The sequences that these entries list, and those that they mark as gaps. */
  ghost predicate Lists(playlist: seq<MediaSegment>, present: set<Uint64>, gaps: set<Uint64>) {
    forall q: Uint64 :: (q in present <==> A.Present(playlist, q)) && (q in gaps <==> A.GapMarked(playlist, q))
  }

  lemma {:induction false} ListsOneMore(before: seq<MediaSegment>, source: MediaSegment, present: set<Uint64>, gaps: set<Uint64>)
    requires Lists(before, present, gaps)
    ensures Lists(before + [source], present + {source.sequence}, if source.gap then gaps + {source.sequence} else gaps)
  {
    var after := before + [source];
    assert after[|before|] == source;
    forall q: Uint64
      ensures A.Present(after, q) <==> A.Present(before, q) || q == source.sequence
      ensures A.GapMarked(after, q) <==> A.GapMarked(before, q) || (source.gap && q == source.sequence)
    {
      if j :| 0 <= j < |before| && before[j].sequence == q { assert after[j].sequence == q; }
      if j :| 0 <= j < |before| && before[j].gap && before[j].sequence == q { assert after[j].gap && after[j].sequence == q; }
    }
  }

  /** The highest sequence so far; before the first entry, that of the first. */
  function Highest(playlist: seq<MediaSegment>, i: nat): Uint64
    requires i <= |playlist| && playlist != []
  {
    if i == 0 then playlist[0].sequence else A.MaxSequence(playlist[..i])
  }

  lemma {:induction false} HighestOneMore(playlist: seq<MediaSegment>, i: nat)
    requires i < |playlist|
    ensures var high := Highest(playlist, i);
      Highest(playlist, i + 1) == if i == 0 || playlist[i].sequence > high then playlist[i].sequence else high
  {
    assert playlist[..i + 1][..i] == playlist[..i];
  }

  class Scheduler {
    var tasks: map<Key, Task>
    var ready: seq<Ref>
    var next: Uint64
    var workers: nat
    var busy: int
    var closed: bool
    var known: bool
    var latest: nat
    var ending: bool
    var endingGen: nat

    function View(): Table reads this { Table(tasks, ready, next, workers, busy, closed) }

    function ClockView(): Clock reads this { Clock(known, latest, ending, endingGen) }

    constructor (firstOrdinal: Uint64)
      ensures View() == Table(map[], [], firstOrdinal, 1, 0, false) && ClockView() == Clock(false, 0, false, 0)
    {
      tasks, ready, next, workers, busy, closed := map[], [], firstOrdinal, 1, 0, false;
      known, latest, ending, endingGen := false, 0, false, 0;
    }

    /** noteMediaGeneration; tells whether an ended stream is open again. */
    method NoteMediaGeneration(gen: nat) returns (reopened: bool)
      modifies this`known, this`latest, this`ending
      ensures ClockView() == Note(old(ClockView()), gen)
      ensures reopened <==> old(ending) && !ending
    {
      reopened := false;
      if !known || gen > latest {
        latest := gen;
        known := true;
        if ending && gen > endingGen {
          ending := false;
          reopened := true;
        }
      }
    }

    /** manifestGenerationCurrentLocked */
    method ManifestGenerationCurrent(media: nat, gen: nat) returns (current: bool)
      modifies this`known, this`latest, this`ending
      ensures current == Current(old(ClockView()), media, gen)
      ensures ClockView() == Checked(old(ClockView()), media, gen)
    {
      if media != gen || (known && gen < latest) { return false; }
      if !known || gen > latest {
        latest := gen;
        known := true;
        if ending && gen > endingGen { ending := false; }
      }
      return true;
    }

    /** growIfSaturatedLocked */
    method GrowIfSaturated()
      modifies this`workers
      ensures View() == Grow(old(View()))
    {
      if |ready| > 0 && busy == workers && workers < MAX_WORKERS && !closed { workers := workers + 1; }
    }

    method Requeue(k: Key, task: Task)
      modifies this`tasks, this`ready, this`workers
      ensures View() == Enqueue(old(View()), k, task)
    {
      tasks := tasks[k := task.(phase := Queued, awaiting := false)];
      ready := ready + [Ref(k, task.ordinal)];
      GrowIfSaturated();
    }

    /** The head of the worker loop. */
    method Take() returns (taken: Option<Ref>)
      requires |ready| > 0
      modifies this`tasks, this`ready, this`busy, this`workers
      ensures View() == TakeHead(old(View()))
      ensures taken == if HeadIsStale(old(View())) then None else Some(old(ready)[0])
    {
      var r := ready[0];
      ready := ready[1..];
      if r.key !in tasks || tasks[r.key].ordinal != r.ordinal || tasks[r.key].phase != Queued { return None; }
      tasks := tasks[r.key := tasks[r.key].(phase := InFlight)];
      busy := busy + 1;
      GrowIfSaturated();
      return Some(r);
    }

    /** One pass of the admission loop in discoverAtGeneration, for an entry that is
        neither archived nor a gap. */
    method Admit(k: Key, gen: nat) returns (result: Admission)
      modifies this`tasks, this`ready, this`workers, this`next
      ensures result == Discover(old(View()), k, gen)
      ensures View() == if result.Admitted? then result.table else old(View())
    {
      if k in tasks {
        var existing := tasks[k];
        if existing.phase == GapCommitting { return Admitted(View()); }
        existing := existing.(available := true, observed := true, observedGen := gen);
        if existing.awaiting && gen >= existing.requiredGen {
          Requeue(k, existing);
        } else {
          tasks := tasks[k := existing];
        }
        return Admitted(View());
      }
      if |tasks| >= MAX_TASKS { return Full; }
      var ordinal := next;
      if ordinal == 0 || ordinal == MAX_UINT64 { return OrdinalOverflow; }
      next := next + 1;
      Requeue(k, NewTask(ordinal, gen));
      return Admitted(View());
    }

    /** The queued tasks, in ordinal order. */
    method RebuildReady()
      modifies this`ready
      ensures QueuedRefs(tasks, ready) && InOrdinalOrder(ready)
    {
      var collected: seq<Ref> := [];
      var rest := tasks.Keys;
      while rest != {}
        invariant rest <= tasks.Keys && Distinct(collected)
        invariant forall r | r in collected :: Live(tasks, r) && tasks[r.key].phase == Queued && r.key !in rest
        invariant forall k | k in tasks && tasks[k].phase == Queued && k !in rest :: Ref(k, tasks[k].ordinal) in collected
        decreases |rest|
      {
        var k :| k in rest;
        if tasks[k].phase == Queued { collected := collected + [Ref(k, tasks[k].ordinal)]; }
        rest := rest - {k};
      }
      SortSorts(collected);
      ready := SortRefs(collected);
      forall i | 0 <= i < |ready| ensures Live(tasks, ready[i]) && tasks[ready[i].key].phase == Queued {
        assert ready[i] in ready;
      }
    }

    /** observeAtGeneration on one task. */
    static method SweepOne(k: Key, before: Task, epoch: Uint64, playlist: seq<MediaSegment>,
                           present: set<Uint64>, gaps: set<Uint64>, maxSeq: Uint64) returns (task: Task, expires: bool)
      requires playlist != [] && maxSeq == A.MaxSequence(playlist)
      requires forall q: Uint64 :: (q in present <==> A.Present(playlist, q)) && (q in gaps <==> A.GapMarked(playlist, q))
      ensures task == SweepTask(k, before, epoch, playlist)
      ensures expires <==> before.phase != GapCommitting && task.phase == GapCommitting
    {
      task, expires := before, false;
      if k.epoch > epoch { return; }
      if task.preloaded {
        task := task.(available := true);
        return;
      }
      var available := k.epoch == epoch && k.sequence in present && k.sequence !in gaps;
      if !available && (k.epoch < epoch || maxSeq > k.sequence || (k.epoch == epoch && k.sequence in gaps)) {
        task := task.(available := false);
        if Waits(task.phase) {
          task := task.(token := task.token + 1, phase := GapCommitting, awaiting := false);
          expires := true;
        }
      } else if available {
        task := task.(available := true);
      }
    }

    /** observeAtGeneration: tasks that the source no longer offers expire. */
    method Observe(epoch: Uint64, playlist: seq<MediaSegment>) returns (expired: set<Ref>)
      requires playlist != []
      modifies this`tasks, this`ready
      ensures tasks == Sweep(old(tasks), epoch, playlist) && Rebuilt(old(View()), tasks, ready)
      ensures expired == Expired(old(tasks), tasks)
      ensures TakesDeparted(old(tasks), tasks, expired, epoch, playlist)
    {
      SweptTableMeans(tasks, epoch, playlist);
      expired := SweepAll(epoch, playlist);
      if expired != {} { RebuildReady(); }
    }

    /** Its loop over the table. */
    method SweepAll(epoch: Uint64, playlist: seq<MediaSegment>) returns (expired: set<Ref>)
      requires playlist != []
      modifies this`tasks
      ensures tasks == Sweep(old(tasks), epoch, playlist) && expired == Expired(old(tasks), tasks)
    {
      var present, gaps, maxSeq := Inventory(playlist);
      var before, rest := tasks, tasks.Keys;
      expired := {};
      while rest != {}
        invariant SweptOutside(before, tasks, rest, expired, epoch, playlist)
        decreases |rest|
      {
        var k :| k in rest;
        var task, expires := SweepOne(k, before[k], epoch, playlist, present, gaps, maxSeq);
        SweptOneMore(before, tasks, rest, expired, k, task, expires, epoch, playlist);
        rest := rest - {k};
        tasks := tasks[k := task];
        if expires { expired := expired + {Ref(k, before[k].ordinal)}; }
      }
      assert tasks == Sweep(before, epoch, playlist);
      ExpiredIs(before, tasks, expired);
    }

    /** The sequences that a playlist lists, those it marks as gaps, and the last. */
    static method Inventory(playlist: seq<MediaSegment>) returns (present: set<Uint64>, gaps: set<Uint64>, maxSeq: Uint64)
      requires playlist != []
      ensures Lists(playlist, present, gaps) && maxSeq == A.MaxSequence(playlist)
    {
      present, gaps, maxSeq := {}, {}, playlist[0].sequence;
      for i := 0 to |playlist|
        invariant Lists(playlist[..i], present, gaps) && maxSeq == Highest(playlist, i)
      {
        var source := playlist[i];
        assert playlist[..i + 1] == playlist[..i] + [source];
        ListsOneMore(playlist[..i], source, present, gaps);
        HighestOneMore(playlist, i);
        present := present + {source.sequence};
        if source.gap { gaps := gaps + {source.sequence}; }
        if i == 0 || source.sequence > maxSeq { maxSeq := source.sequence; }
      }
      assert playlist[..|playlist|] == playlist;
    }

    /** endList on one task. */
    method EndOne(k: Key) returns (requeues: bool, expires: bool)
      requires k in tasks
      modifies this`tasks, this`ready, this`workers
      ensures requeues <==> old(tasks)[k].phase == AwaitManifest && Refreshed(old(tasks)[k])
      ensures expires <==> old(tasks)[k].phase != GapCommitting && EndTask(old(tasks)[k]).phase == GapCommitting
      ensures tasks == old(tasks)[k := EndTask(old(tasks)[k])]
      ensures View() == if requeues then Enqueue(old(View()), k, old(tasks)[k]) else old(View()).(tasks := tasks)
    {
      var task := tasks[k];
      if task.phase == AwaitManifest {
        if task.available && task.observed && task.observedGen >= task.requiredGen {
          Requeue(k, task);
          return true, false;
        }
        tasks := tasks[k := task.(available := false, token := task.token + 1, awaiting := false, phase := GapCommitting)];
        return false, true;
      }
      assert tasks == tasks[k := task];
      return false, false;
    }

    /** One task of endList's loop over the table `v`; the tasks in `rest` are still to come. */
    method EndVisit(k: Key, expired: set<Ref>, ghost v: Table, ghost rest: set<Key>, ghost requeued: seq<Ref>)
      returns (moreExpired: set<Ref>, ghost moreRequeued: seq<Ref>)
      requires k in rest && k in v.tasks && EndedOutside(v.tasks, tasks, rest, expired)
      requires RequeuesOutside(v.tasks, rest, requeued) && View() == Extended(v, tasks, requeued)
      modifies this`tasks, this`ready, this`workers
      ensures EndedOutside(v.tasks, tasks, rest - {k}, moreExpired)
      ensures RequeuesOutside(v.tasks, rest - {k}, moreRequeued) && View() == Extended(v, tasks, moreRequeued)
    {
      var task := tasks[k];
      EndedOneMore(v.tasks, tasks, rest, expired, k);
      ExtendedOneMore(v, tasks, requeued, k);
      var requeues, expires := EndOne(k);
      moreExpired := if expires then expired + {Ref(k, task.ordinal)} else expired;
      if requeues {
        RequeuesOneMore(v.tasks, rest, requeued, k);
        moreRequeued := requeued + [Ref(k, task.ordinal)];
      } else {
        RequeuesNoMore(v.tasks, rest, requeued, k);
        moreRequeued := requeued;
      }
    }

    /** endList, once the generation is known to be current. */
    method EndList(gen: nat) returns (expired: set<Ref>, ghost requeued: seq<Ref>)
      modifies this
      ensures Requeues(old(tasks), requeued) && View() == EndListTable(old(View()), requeued)
      ensures ClockView() == old(ClockView()).(ending := true, endingGen := gen)
      ensures expired == Expired(old(tasks), tasks)
      ensures EndsWaiting(old(tasks), tasks, expired)
    {
      EndedTableMeans(tasks);
      ending, endingGen := true, gen;
      expired, requeued := EndAll();
    }

    /** Its loop over the table. */
    method EndAll() returns (expired: set<Ref>, ghost requeued: seq<Ref>)
      modifies this`tasks, this`ready, this`workers
      ensures Requeues(old(tasks), requeued) && View() == EndListTable(old(View()), requeued)
      ensures expired == Expired(old(tasks), tasks)
    {
      ghost var v := View();
      var rest := tasks.Keys;
      expired, requeued := {}, [];
      NoneEnded(v);
      while rest != {}
        invariant rest <= v.tasks.Keys && EndedOutside(v.tasks, tasks, rest, expired)
        invariant RequeuesOutside(v.tasks, rest, requeued) && View() == Extended(v, tasks, requeued)
        decreases |rest|
      {
        var k :| k in rest;
        expired, requeued := EndVisit(k, expired, v, rest, requeued);
        rest := rest - {k};
      }
      AllEnded(v, tasks, expired, requeued);
    }

    /** awaitManifest */
    method AwaitPlaylist(k: Key, media: nat)
      requires k in tasks
      modifies this
      ensures ClockView() == if media > old(latest) then Note(old(ClockView()), media) else old(ClockView())
      ensures View() == AwaitNext(old(View()), k, ending)
    {
      if media > latest {
        latest, known := media, true;
        if ending && media > endingGen { ending := false; }
      }
      var task := tasks[k];
      if task.available && task.observed && task.observedGen >= task.requiredGen {
        Requeue(k, task);
      } else if !ending {
        tasks := tasks[k := task.(phase := AwaitManifest, awaiting := true)];
      } else {
        tasks := tasks[k := task.(phase := GapCommitting)];
      }
    }

    /** The timer fires: requeue the task if the timer is still its own. */
    method RetryTimer(r: Ref, token: nat, canceled: bool) returns (fired: bool)
      modifies this`tasks, this`ready, this`workers
      ensures fired <==> !old(closed) && !canceled && Live(old(tasks), r) && old(tasks)[r.key].token == token && old(tasks)[r.key].available
      ensures View() == if fired then Enqueue(old(View()), r.key, old(tasks)[r.key]) else old(View())
    {
      if closed || canceled || r.key !in tasks || tasks[r.key].ordinal != r.ordinal || tasks[r.key].token != token || !tasks[r.key].available {
        return false;
      }
      Requeue(r.key, tasks[r.key]);
      return true;
    }
  }

  /** `requeued` lists the tasks outside `rest` that endList makes ready again. */
  ghost predicate RequeuesOutside(tasks: map<Key, Task>, rest: set<Key>, requeued: seq<Ref>) {
    && Distinct(requeued)
    && (forall r | r in requeued :: Live(tasks, r) && r.key !in rest && tasks[r.key].phase == AwaitManifest && Refreshed(tasks[r.key]))
    && (forall k | k in tasks && k !in rest && tasks[k].phase == AwaitManifest && Refreshed(tasks[k]) :: Ref(k, tasks[k].ordinal) in requeued)
  }

  lemma RequeuesOneMore(tasks: map<Key, Task>, rest: set<Key>, requeued: seq<Ref>, k: Key)
    requires RequeuesOutside(tasks, rest, requeued) && k in rest && k in tasks && tasks[k].phase == AwaitManifest && Refreshed(tasks[k])
    ensures RequeuesOutside(tasks, rest - {k}, requeued + [Ref(k, tasks[k].ordinal)])
  {
    var more := requeued + [Ref(k, tasks[k].ordinal)];
    assert forall r :: r in more <==> r in requeued || r == Ref(k, tasks[k].ordinal);
  }

  /** A table with other tasks and more of them ready. */
  function Extended(t: Table, tasks: map<Key, Task>, requeued: seq<Ref>): Table {
    var u := t.(tasks := tasks, ready := t.ready + requeued);
    if requeued == [] then u else Grow(u)
  }

  lemma RequeuesNoMore(tasks: map<Key, Task>, rest: set<Key>, requeued: seq<Ref>, k: Key)
    requires RequeuesOutside(tasks, rest, requeued) && k in tasks && !(tasks[k].phase == AwaitManifest && Refreshed(tasks[k]))
    ensures RequeuesOutside(tasks, rest - {k}, requeued)
  {
  }

  /** Growing happens once: after it, not all workers are busy. */
  lemma ExtendedOneMore(t: Table, tasks: map<Key, Task>, requeued: seq<Ref>, k: Key)
    requires k in tasks
    ensures var u := Extended(t, tasks, requeued);
      if tasks[k].phase == AwaitManifest && Refreshed(tasks[k])
      then Enqueue(u, k, tasks[k]) == Extended(t, tasks[k := EndTask(tasks[k])], requeued + [Ref(k, tasks[k].ordinal)])
      else u.(tasks := tasks[k := EndTask(tasks[k])]) == Extended(t, tasks[k := EndTask(tasks[k])], requeued)
  {
    var r := Ref(k, tasks[k].ordinal);
    assert t.ready + requeued + [r] == t.ready + (requeued + [r]);
  }

  lemma EndedOneMore(before: map<Key, Task>, tasks: map<Key, Task>, rest: set<Key>, expired: set<Ref>, k: Key)
    requires EndedOutside(before, tasks, rest, expired) && k in rest && k in before
    ensures var expires := before[k].phase != GapCommitting && EndTask(before[k]).phase == GapCommitting;
      EndedOutside(before, tasks[k := EndTask(tasks[k])], rest - {k}, if expires then expired + {Ref(k, before[k].ordinal)} else expired)
  {
  }

  /** endList has been applied outside `rest`. */
  ghost predicate EndedOutside(before: map<Key, Task>, tasks: map<Key, Task>, rest: set<Key>, expired: set<Ref>) {
    && tasks.Keys == before.Keys
    && (forall k | k in before :: tasks[k] == if k in rest then before[k] else EndTask(before[k]))
    && (forall r :: r in expired <==> Live(before, r) && r.key !in rest && BecomesGap(before, tasks, r.key))
  }

  lemma NoneEnded(t: Table)
    ensures EndedOutside(t.tasks, t.tasks, t.tasks.Keys, {}) && RequeuesOutside(t.tasks, t.tasks.Keys, []) && t == Extended(t, t.tasks, [])
  {
    assert t.ready + [] == t.ready;
  }

  lemma AllEnded(t: Table, tasks: map<Key, Task>, expired: set<Ref>, requeued: seq<Ref>)
    requires EndedOutside(t.tasks, tasks, {}, expired) && RequeuesOutside(t.tasks, {}, requeued)
    ensures Requeues(t.tasks, requeued) && Extended(t, tasks, requeued) == EndListTable(t, requeued) && expired == Expired(t.tasks, tasks)
  {
    assert tasks == EndTasks(t.tasks);
    ExpiredIs(t.tasks, tasks, expired);
  }

  predicate BecomesGap(before: map<Key, Task>, after: map<Key, Task>, k: Key) {
    k in before && k in after && before[k].phase != GapCommitting && after[k].phase == GapCommitting
  }

  lemma ExpiredIs(before: map<Key, Task>, after: map<Key, Task>, expired: set<Ref>)
    requires before.Keys == after.Keys
    requires forall r :: r in expired <==> Live(before, r) && BecomesGap(before, after, r.key)
    ensures expired == Expired(before, after)
  {
    forall r ensures r in expired <==> r in Expired(before, after) {
      if r in expired { assert r == Ref(r.key, before[r.key].ordinal); }
    }
  }
}
