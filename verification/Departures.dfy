/** What the functions of the scheduler's table mean for a task, said without them:
    when a playlist takes its object away, and when a failed download is the last one. */
module Departures {
  import opened Archive
  import opened TaskTable
  import A = Accounting

  /** The playlist of this epoch has an entry of the object and none that marks it as a gap. */
  predicate OnOffer(k: Key, epoch: Uint64, playlist: seq<MediaSegment>) {
    && k.epoch == epoch && (exists i | 0 <= i < |playlist| :: playlist[i].sequence == k.sequence)
    && forall i | 0 <= i < |playlist| && playlist[i].sequence == k.sequence :: !playlist[i].gap
  }

  /** The source will not offer the object any more: its epoch is over, the playlist marks
      it as a gap, or the playlist leaves it out and has a later entry. */
  predicate Departed(k: Key, epoch: Uint64, playlist: seq<MediaSegment>) {
    || k.epoch < epoch
    || (k.epoch == epoch && exists i | 0 <= i < |playlist| :: playlist[i].sequence == k.sequence && playlist[i].gap)
    || (&& k.epoch == epoch && (forall i | 0 <= i < |playlist| :: playlist[i].sequence != k.sequence)
        && exists i | 0 <= i < |playlist| :: playlist[i].sequence > k.sequence)
  }

  /** Nobody is working on the task: it waits for a worker, a retry or a playlist. */
  predicate Idle(task: Task) { task.phase == Queued || task.phase == RetryWait || task.phase == AwaitManifest }

  /** A sweep turns exactly the idle tasks of departed objects into gaps, preloaded ones
      excepted; it notes of every task whether its object is on offer, and changes nothing else. */
  lemma SweepMeans(k: Key, task: Task, epoch: Uint64, playlist: seq<MediaSegment>)
    requires playlist != []
    ensures var swept, departs := SweepTask(k, task, epoch, playlist), Departed(k, epoch, playlist) && !task.preloaded;
      && (departs && Idle(task) ==>
            swept == task.(available := false, awaiting := false, token := task.token + 1, phase := GapCommitting))
      && (departs && !Idle(task) ==> swept == task.(available := false))
      && (!departs ==> swept == task.(available := task.available || OnOffer(k, epoch, playlist) || (task.preloaded && k.epoch <= epoch)))
  {
    assert A.MaxSequence(playlist) > k.sequence <==> exists i | 0 <= i < |playlist| :: playlist[i].sequence > k.sequence;
  }

  /** From one table to the next, the idle tasks of departed objects became gaps, all others
      kept their phase, and `expired` lists those that became gaps. */
  ghost predicate TakesDeparted(before: map<Key, Task>, after: map<Key, Task>, expired: set<Ref>, epoch: Uint64, playlist: seq<MediaSegment>) {
    && before.Keys == after.Keys
    && (forall k | k in before && Departed(k, epoch, playlist) && !before[k].preloaded :: !Idle(after[k]))
    && (forall k | k in before && !(Departed(k, epoch, playlist) && !before[k].preloaded && Idle(before[k])) :: after[k].phase == before[k].phase)
    && (forall r :: r in expired <==>
          Live(before, r) && Departed(r.key, epoch, playlist) && !before[r.key].preloaded && Idle(before[r.key]))
    && (forall r | r in expired :: after[r.key].phase == GapCommitting)
  }

  lemma SweptTableMeans(tasks: map<Key, Task>, epoch: Uint64, playlist: seq<MediaSegment>)
    requires playlist != []
    ensures TakesDeparted(tasks, Sweep(tasks, epoch, playlist), Expired(tasks, Sweep(tasks, epoch, playlist)), epoch, playlist)
  {
    forall k | k in tasks { SweepMeans(k, tasks[k], epoch, playlist); }
  }

  /** ENDLIST leaves no task waiting for a playlist: those that the playlist they asked for
      has offered are ready again, and the others became gaps. */
  ghost predicate EndsWaiting(before: map<Key, Task>, after: map<Key, Task>, expired: set<Ref>) {
    && before.Keys == after.Keys
    && (forall k | k in before && before[k].phase != AwaitManifest :: after[k] == before[k])
    && (forall k | k in before && before[k].phase == AwaitManifest ::
          after[k].phase == if before[k].available && before[k].observed && before[k].observedGen >= before[k].requiredGen
                            then Queued else GapCommitting)
    && (forall r :: r in expired <==> Live(before, r) && before[r.key].phase == AwaitManifest && after[r.key].phase == GapCommitting)
  }

  lemma EndedTableMeans(tasks: map<Key, Task>)
    ensures EndsWaiting(tasks, EndTasks(tasks), Expired(tasks, EndTasks(tasks)))
  {
  }

  /** A failed download is the last one if the object is no longer on offer, or if it was
      the third and the stream has ended. */
  predicate LastAttempt(task: Task, ending: bool) { !task.available || (ending && task.attempt + 1 >= 3) }

  /** After the last attempt the task becomes a gap; after any other it waits for the next. */
  lemma FailureMeans(task: Task, ending: bool)
    ensures var after := AfterFailure(task, ending);
      if LastAttempt(task, ending) then after.phase == GapCommitting
      else after.phase == RetryWait && after.attempt == task.attempt + 1 && after.token == task.token + 1
  {
  }
}
