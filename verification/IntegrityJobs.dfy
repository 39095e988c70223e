/** The integrity job machine (internal/integrity/service.go): queued verification jobs,
    at most one per recording, whose failures leave the recording's result alone. Each
    step is one critical section of the service's mutex; `saved` says whether a write of
    the state file succeeds. */
module IntegrityJobs {
  const MAX_ACTIVE: nat := 64
  const MAX_HISTORY: nat := 5000

  datatype Option<+T> = None | Some(value: T)

  datatype Status = Verifying | Unknown | Failing | Sound

  /** A verification result. */
  datatype Outcome = Outcome(status: Status, issues: seq<string>)

  datatype Phase = Queued | Running | Completed | Failed | Canceled

  datatype Code = NoCode | CanceledCode | Interrupted | NotPersisted | NotVerified

  datatype Job = Job(id: nat, recording: string, phase: Phase, code: Code, result: Option<Outcome>)

  datatype Disk = Disk(jobs: seq<Job>, results: map<string, Outcome>)

  /** The service, its queue, and its workers: those that received an ID but do not hold
      the lock yet, those that verify, and those about to report that they stopped.
      A control remembers the result from before its job ran. */
  datatype State = State(
    jobs: map<nat, Job>, order: seq<nat>, results: map<string, Outcome>, active: map<string, nat>,
    controls: map<nat, Option<Outcome>>, queue: seq<nat>, received: seq<nat>, verifying: set<nat>, leaving: nat,
    running: int, closed: bool, nextId: nat, disk: Disk)

  predicate Active(j: Job) { j.phase == Queued || j.phase == Running }

  // Steps ----------------------------------------------------------------------------------

  function InOrder(jobs: map<nat, Job>, order: seq<nat>): seq<Job> {
    if order == [] then []
    else InOrder(jobs, order[..|order| - 1]) + if order[|order| - 1] in jobs then [jobs[order[|order| - 1]]] else []
  }

  /** persistLocked */
  function Persisted(s: State, saved: bool): State {
    if saved then s.(disk := Disk(InOrder(s.jobs, s.order), s.results)) else s
  }

  function Restored(results: map<string, Outcome>, recording: string, previous: Option<Outcome>): map<string, Outcome> {
    if previous.None? then results - {recording} else results[recording := previous.value]
  }

  /** finishLocked */
  function Finished(s: State, id: nat): State
    requires id in s.jobs
  {
    var recording := s.jobs[id].recording;
    s.(active := if recording in s.active && s.active[recording] == id then s.active - {recording} else s.active,
       controls := s.controls - {id})
  }

  function WithPhase(s: State, id: nat, phase: Phase, code: Code, result: Option<Outcome>): State
    requires id in s.jobs
  {
    s.(jobs := s.jobs[id := s.jobs[id].(phase := phase, code := code, result := result)])
  }

  /** cancelJobLocked */
  function CanceledJob(s: State, id: nat): State {
    if id !in s.jobs || !Active(s.jobs[id]) then s
    else
      var j := s.jobs[id];
      var t := if id in s.controls && j.phase == Running then s.(results := Restored(s.results, j.recording, s.controls[id])) else s;
      Finished(WithPhase(t, id, Canceled, CanceledCode, None), id)
  }

  /** failLocked */
  function FailedJob(s: State, id: nat, code: Code, previous: Option<Outcome>): State
    requires id in s.jobs
  {
    var t := s.(results := Restored(s.results, s.jobs[id].recording, previous));
    Finished(WithPhase(t, id, Failed, code, None), id)
  }

  function FirstTerminal(jobs: map<nat, Job>, order: seq<nat>, i: nat): (k: nat)
    requires i <= |order|
    ensures i <= k <= |order| && (k < |order| ==> order[k] in jobs && !Active(jobs[order[k]]))
    ensures forall j | i <= j < k :: order[j] in jobs ==> Active(jobs[order[j]])
    decreases |order| - i
  {
    if i == |order| || (order[i] in jobs && !Active(jobs[order[i]])) then i else FirstTerminal(jobs, order, i + 1)
  }

  datatype Reply = Accepted(id: nat) | Existing(id: nat) | Full | Closed | NotSaved

  /** Where history makes room: at its oldest finished job, if it is full. */
  function PruneIndex(s: State): (k: nat)
    ensures k <= |s.order| && (k < |s.order| ==> s.order[k] in s.jobs)
  {
    if |s.order| >= MAX_HISTORY then FirstTerminal(s.jobs, s.order, 0) else |s.order|
  }

  function Pruned(s: State): State {
    var k := PruneIndex(s);
    if k == |s.order| then s else s.(jobs := s.jobs - {s.order[k]}, order := s.order[..k] + s.order[k + 1..])
  }

  function Admitted(s: State, recording: string): State {
    s.(jobs := s.jobs[s.nextId := Job(s.nextId, recording, Queued, NoCode, None)], order := s.order + [s.nextId],
       active := s.active[recording := s.nextId], controls := s.controls[s.nextId := None],
       queue := s.queue + [s.nextId], nextId := s.nextId + 1)
  }

  /** The state with a new job. */
  function Enqueued(s: State, recording: string): State { Admitted(Pruned(s), recording) }

  predicate HistoryBlocks(s: State) { |s.order| >= MAX_HISTORY && FirstTerminal(s.jobs, s.order, 0) == |s.order| }

  /** Start */
  function Started(s: State, recording: string, saved: bool): (State, Reply) {
    if s.closed then (s, Closed)
    else if recording in s.active then (s, Existing(s.active[recording]))
    else if |s.active| >= MAX_ACTIVE || HistoryBlocks(s) || |s.queue| >= MAX_ACTIVE then (s, Full)
    else if saved then (Persisted(Enqueued(s, recording), true), Accepted(s.nextId))
    else (s.(queue := s.queue + [s.nextId], nextId := s.nextId + 1), NotSaved)
  }

  /** A worker receives the oldest queued ID. */
  function Received(s: State): State
    requires s.queue != []
  {
    s.(queue := s.queue[1..], received := s.received + [s.queue[0]])
  }

  function VerifyingVersion(previous: Option<Outcome>): Outcome {
    if previous.None? then Outcome(Verifying, []) else previous.value.(status := Verifying)
  }

  function Lookup(results: map<string, Outcome>, recording: string): Option<Outcome> {
    if recording in results then Some(results[recording]) else None
  }

  function RunningJob(s: State, id: nat): State
    requires id in s.jobs
  {
    var recording := s.jobs[id].recording;
    var previous := Lookup(s.results, recording);
    s.(jobs := s.jobs[id := s.jobs[id].(phase := Running)], running := s.running + 1, verifying := s.verifying + {id},
       controls := s.controls[id := previous], results := s.results[recording := VerifyingVersion(previous)])
  }

  function Stopped(s: State, id: nat): State { s.(verifying := s.verifying - {id}, leaving := s.leaving + 1) }

  /** run, up to the verification, for the i-th received ID. */
  function Begun(s: State, i: nat, saved: bool, again: bool): State
    requires i < |s.received|
  {
    var id, t := s.received[i], s.(received := s.received[..i] + s.received[i + 1..]);
    if id !in t.jobs || t.jobs[id].phase != Queued || id !in t.controls then t
    else if t.closed then Persisted(CanceledJob(t, id), saved)
    else
      var u := RunningJob(t, id);
      if saved then Persisted(u, true) else Stopped(Persisted(FailedJob(u, id, NotPersisted, u.controls[id]), again), id)
  }

  function CompletedJob(s: State, id: nat, verdict: Outcome): State
    requires id in s.jobs
  {
    Finished(WithPhase(s, id, Completed, NoCode, Some(verdict)).(results := s.results[s.jobs[id].recording := verdict]), id)
  }

  /** The completion could not be saved: the previous result is put back. */
  function Unpersisted(s: State, t: State, id: nat): State
    requires id in s.jobs && id in t.jobs && id in s.controls
  {
    WithPhase(t.(results := Restored(t.results, s.jobs[id].recording, s.controls[id])), id, Failed, NotPersisted, None)
  }

  /** run, after the verification; no verdict stands for a panic. */
  function Ended(s: State, id: nat, verdict: Option<Outcome>, saved: bool, again: bool): State
    requires id in s.verifying
  {
    var t := Stopped(s, id);
    if id !in s.jobs || s.jobs[id].phase != Running || id !in s.controls then t
    else if s.closed then Persisted(CanceledJob(t, id), saved)
    else if verdict.None? then Persisted(FailedJob(t, id, NotVerified, t.controls[id]), saved)
    else
      var u := CompletedJob(t, id, verdict.value);
      if saved then Persisted(u, true) else Persisted(Unpersisted(t, u, id), again)
  }

  /** Close: every active job is cancelled. */
  function AllCanceled(s: State): State {
    s.(closed := true, active := map[], controls := map[],
       jobs := CanceledJobs(s.jobs),
       results := SettledResults(s))
  }

  function CanceledJobs(jobs: map<nat, Job>): map<nat, Job> {
    map id | id in jobs :: if Active(jobs[id]) then jobs[id].(phase := Canceled, code := CanceledCode, result := None) else jobs[id]
  }

  function SettledResults(s: State): map<string, Outcome> {
    map r | r in s.results.Keys + s.active.Keys && Settled(s, r).Some? :: Settled(s, r).value
  }

  datatype Action =
    | Start(recording: string, saved: bool) | Receive | Begin(i: nat, saved: bool, again: bool)
    | End(id: nat, verdict: Option<Outcome>, saved: bool, again: bool) | Leave | Cancel(id: nat, saved: bool) | Close(saved: bool)

  predicate Enabled(s: State, a: Action) {
    match a
    case Start(_, _) => true
    case Receive => s.queue != []
    case Begin(i, _, _) => i < |s.received|
    case End(id, verdict, _, _) => id in s.verifying && (verdict.Some? ==> verdict.value.status != Verifying)
    case Leave => s.leaving > 0
    case Cancel(_, _) => true
    case Close(_) => true
  }

  function Step(s: State, a: Action): State
    requires Enabled(s, a)
  {
    match a
    case Start(recording, saved) => Started(s, recording, saved).0
    case Receive => Received(s)
    case Begin(i, saved, again) => Begun(s, i, saved, again)
    case End(id, verdict, saved, again) => Ended(s, id, verdict, saved, again)
    case Leave => s.(leaving := s.leaving - 1, running := s.running - 1)
    case Cancel(id, saved) => if id in s.jobs && Active(s.jobs[id]) then Persisted(CanceledJob(s, id), saved) else s
    case Close(saved) => if s.closed then s else Persisted(AllCanceled(s), saved)
  }

  // Invariant ------------------------------------------------------------------------------

  /** The result of a recording, leaving aside the mark of a job that is running. */
  function Settled(s: State, r: string): Option<Outcome> {
    if r in s.active && s.active[r] in s.jobs && s.jobs[s.active[r]].phase == Running && s.active[r] in s.controls
    then s.controls[s.active[r]] else Lookup(s.results, r)
  }

  /** A job, its control, and the recording it is active for agree. */
  predicate JobOk(s: State, id: nat) {
    (id in s.controls ==> id in s.jobs)
    && (id in s.jobs ==>
          var j := s.jobs[id];
          && j.id == id && id < s.nextId
          && (Active(j) <==> j.recording in s.active && s.active[j.recording] == id) && (Active(j) <==> id in s.controls)
          && (j.phase == Running ==> id in s.verifying && Lookup(s.results, j.recording) == Some(VerifyingVersion(s.controls[id])))
          && (j.phase == Queued ==> id !in s.verifying && s.controls[id] == None))
  }

  /** A queued job is still on its way to a worker. */
  predicate Waits(s: State, id: nat) {
    id in s.jobs && s.jobs[id].phase == Queued ==> id in s.queue || id in s.received
  }

  /** A result reads "verifying" only while a job runs for its recording. */
  predicate RecordingOk(s: State, r: string) {
    && (r in s.active ==> s.active[r] in s.jobs && s.jobs[s.active[r]].recording == r)
    && (r in s.results && s.results[r].status == Verifying ==>
          r in s.active && s.active[r] in s.jobs && s.jobs[s.active[r]].phase == Running)
    && (Settled(s, r).Some? ==> Settled(s, r).value.status != Verifying)
  }

  predicate Distinct(order: seq<nat>) { forall i, j | 0 <= i < j < |order| :: order[i] != order[j] }

  ghost predicate OrderOk(s: State) { Distinct(s.order) && |s.order| <= MAX_HISTORY && forall id: nat :: id in s.order <==> id in s.jobs }

  ghost predicate Bounds(s: State) {
    && |s.active| <= MAX_ACTIVE && |s.queue| <= MAX_ACTIVE && s.running == |s.verifying| + s.leaving
    && (forall id | id in s.queue || id in s.received || id in s.verifying :: id < s.nextId)
  }

  ghost predicate Core(s: State) {
    && (forall id: nat :: JobOk(s, id)) && (forall r: string :: RecordingOk(s, r))
    && OrderOk(s) && Bounds(s)
  }

  ghost predicate Inv(s: State) { Core(s) && forall id: nat :: Waits(s, id) }

  // Leaving the active jobs --------------------------------------------------------------------

  /** The job becomes `done`, and its recording's result becomes `result`. */
  function Release(s: State, id: nat, done: Job, result: Option<Outcome>): State {
    s.(jobs := s.jobs[id := done], active := s.active - {done.recording}, controls := s.controls - {id},
       results := Restored(s.results, done.recording, result))
  }

  ghost predicate Releases(s: State, id: nat, done: Job, result: Option<Outcome>) {
    && id in s.jobs && Active(s.jobs[id]) && !Active(done) && done.id == id && done.recording == s.jobs[id].recording
    && (result.Some? ==> result.value.status != Verifying)
  }

  lemma ReleaseKeepsJobs(s: State, id: nat, done: Job, result: Option<Outcome>)
    requires Core(s) && Releases(s, id, done, result)
    ensures forall k: nat :: JobOk(Release(s, id, done, result), k)
  {
    assert JobOk(s, id);
    forall k: nat ensures JobOk(Release(s, id, done, result), k) { assert JobOk(s, k); }
  }

  lemma ReleaseKeepsBounds(s: State, id: nat, done: Job, result: Option<Outcome>)
    requires OrderOk(s) && Bounds(s) && id in s.jobs
    ensures OrderOk(Release(s, id, done, result)) && Bounds(Release(s, id, done, result))
  {
    Smaller(s.active, done.recording);
  }

  lemma ReleaseKeeps(s: State, id: nat, done: Job, result: Option<Outcome>)
    requires Core(s) && Releases(s, id, done, result)
    ensures Core(Release(s, id, done, result))
  {
    var t := Release(s, id, done, result);
    ReleaseKeepsJobs(s, id, done, result);
    ReleaseKeepsBounds(s, id, done, result);
    assert JobOk(s, id);
    forall r: string ensures RecordingOk(t, r) {
      assert RecordingOk(s, r);
      ReleaseSettles(s, id, done, result, r);
    }
  }

  lemma Smaller(m: map<string, nat>, r: string)
    ensures |m - {r}| <= |m|
  {
    assert (m - {r}).Keys == m.Keys - {r};
    assert |(m - {r}).Keys| == |m - {r}| && |m.Keys| == |m|;
  }

  lemma ReleaseSettles(s: State, id: nat, done: Job, result: Option<Outcome>, r: string)
    requires Core(s) && Releases(s, id, done, result)
    ensures Settled(Release(s, id, done, result), r) == if r == done.recording then result else Settled(s, r)
  {
    assert JobOk(s, id) && RecordingOk(s, r);
    if r in s.active { assert JobOk(s, s.active[r]); }
  }

  lemma CancelReleases(s: State, id: nat)
    requires Core(s) && id in s.jobs && Active(s.jobs[id])
    ensures var done := s.jobs[id].(phase := Canceled, code := CanceledCode, result := None);
      var before := Settled(s, done.recording);
      Releases(s, id, done, before) && CanceledJob(s, id) == Release(s, id, done, before)
  {
    var done := s.jobs[id].(phase := Canceled, code := CanceledCode, result := None);
    assert JobOk(s, id) && RecordingOk(s, done.recording);
    assert Restored(s.results, done.recording, Lookup(s.results, done.recording)) == s.results;
  }

  lemma FailReleases(s: State, id: nat, code: Code)
    requires Core(s) && id in s.jobs && s.jobs[id].phase == Running && id in s.controls
    ensures var done := s.jobs[id].(phase := Failed, code := code, result := None);
      && s.controls[id] == Settled(s, done.recording) && Releases(s, id, done, s.controls[id])
      && FailedJob(s, id, code, s.controls[id]) == Release(s, id, done, s.controls[id])
  {
    assert JobOk(s, id) && RecordingOk(s, s.jobs[id].recording);
  }

  lemma CompleteReleases(s: State, id: nat, verdict: Outcome)
    requires Core(s) && id in s.jobs && s.jobs[id].phase == Running && verdict.status != Verifying
    ensures var done := s.jobs[id].(phase := Completed, code := NoCode, result := Some(verdict));
      Releases(s, id, done, Some(verdict)) && CompletedJob(s, id, verdict) == Release(s, id, done, Some(verdict))
  {
    assert JobOk(s, id);
  }

  lemma UnpersistedReleases(s: State, id: nat, verdict: Outcome)
    requires Core(s) && id in s.jobs && s.jobs[id].phase == Running && id in s.controls && verdict.status != Verifying
    ensures var done := s.jobs[id].(phase := Failed, code := NotPersisted, result := None);
      && s.controls[id] == Settled(s, done.recording) && Releases(s, id, done, s.controls[id])
      && Unpersisted(s, CompletedJob(s, id, verdict), id) == Release(s, id, done, s.controls[id])
  {
    CompleteReleases(s, id, verdict);
    assert JobOk(s, id) && RecordingOk(s, s.jobs[id].recording);
    var u := Unpersisted(s, CompletedJob(s, id, verdict), id);
    var recording := s.jobs[id].recording;
    assert Restored(s.results[recording := verdict], recording, s.controls[id]) == Restored(s.results, recording, s.controls[id]);
    assert u.jobs == s.jobs[id := s.jobs[id].(phase := Failed, code := NotPersisted, result := None)];
  }

  // Steps keep the invariant ------------------------------------------------------------------

  lemma PersistKeeps(s: State, saved: bool)
    ensures Core(s) ==> Core(Persisted(s, saved))
    ensures Inv(s) ==> Inv(Persisted(s, saved))
    ensures forall r: string :: Settled(Persisted(s, saved), r) == Settled(s, r)
  {
    var t := Persisted(s, saved);
    if Core(s) {
      forall k: nat ensures JobOk(t, k) { assert JobOk(s, k); }
      forall r: string ensures RecordingOk(t, r) { assert RecordingOk(s, r); }
    }
    if Inv(s) { forall k: nat ensures Waits(t, k) { assert Waits(s, k); } }
  }

  lemma RunningKeeps(s: State, id: nat)
    requires Core(s) && id in s.jobs && s.jobs[id].phase == Queued
    ensures Core(RunningJob(s, id)) && forall r: string :: Settled(RunningJob(s, id), r) == Settled(s, r)
  {
    var t, recording := RunningJob(s, id), s.jobs[id].recording;
    assert JobOk(s, id);
    forall r: string ensures RecordingOk(t, r) && Settled(t, r) == Settled(s, r) {
      assert RecordingOk(s, r);
      if r in s.active { assert JobOk(s, s.active[r]); }
    }
    forall k: nat ensures JobOk(t, k) { assert JobOk(s, k); }
  }

  /** A worker that no longer runs a job goes. */
  lemma StopKeeps(s: State, id: nat)
    requires Core(s) && id in s.verifying && (id in s.jobs ==> s.jobs[id].phase != Running)
    ensures Core(Stopped(s, id)) && forall r: string :: Settled(Stopped(s, id), r) == Settled(s, r)
  {
    var t := Stopped(s, id);
    forall k: nat ensures JobOk(t, k) { assert JobOk(s, k); }
    forall r: string ensures RecordingOk(t, r) { assert RecordingOk(s, r); }
  }

  /** The worker drops an ID that it received. */
  lemma DropKeeps(s: State, i: nat)
    requires Inv(s) && i < |s.received|
    ensures var t := s.(received := s.received[..i] + s.received[i + 1..]);
      && Core(t) && (forall r: string :: Settled(t, r) == Settled(s, r)) && forall k: nat | k != s.received[i] :: Waits(t, k)
  {
    var t := s.(received := s.received[..i] + s.received[i + 1..]);
    forall k: nat ensures JobOk(t, k) { assert JobOk(s, k); }
    forall r: string ensures RecordingOk(t, r) { assert RecordingOk(s, r); }
    forall j | 0 <= j < |t.received| ensures t.received[j] in s.received {
      assert t.received[j] == s.received[if j < i then j else j + 1];
    }
    assert forall k | k in t.received :: k in s.received;
    forall k: nat | k != s.received[i] ensures Waits(t, k) {
      assert Waits(s, k);
      if k in s.received {
        var j :| 0 <= j < |s.received| && s.received[j] == k;
        assert t.received[if j < i then j else j - 1] == k;
      }
    }
  }

  /** Nothing but results changes hands: what every recording's settled result becomes. */
  ghost predicate Unsettled(s: State, t: State) { forall r: string :: Settled(t, r) == Settled(s, r) }

  lemma CancelKeeps(s: State, id: nat)
    requires Core(s) && (id in s.jobs ==> Active(s.jobs[id]))
    ensures Core(CanceledJob(s, id)) && Unsettled(s, CanceledJob(s, id))
    ensures id in s.jobs ==> id in CanceledJob(s, id).jobs && !Active(CanceledJob(s, id).jobs[id])
    ensures forall k: nat | k != id && Waits(s, k) :: Waits(CanceledJob(s, id), k)
  {
    if id in s.jobs {
      var done := s.jobs[id].(phase := Canceled, code := CanceledCode, result := None);
      var before := Settled(s, done.recording);
      CancelReleases(s, id);
      ReleaseKeeps(s, id, done, before);
      forall r: string ensures Settled(CanceledJob(s, id), r) == Settled(s, r) { ReleaseSettles(s, id, done, before, r); }
    }
  }

  lemma FailKeeps(s: State, id: nat, code: Code)
    requires Core(s) && id in s.jobs && s.jobs[id].phase == Running && id in s.controls
    ensures var t := FailedJob(s, id, code, s.controls[id]);
      && Core(t) && Unsettled(s, t) && id in t.jobs && t.jobs[id].phase == Failed
      && forall k: nat | k != id && Waits(s, k) :: Waits(t, k)
  {
    var done := s.jobs[id].(phase := Failed, code := code, result := None);
    FailReleases(s, id, code);
    ReleaseKeeps(s, id, done, s.controls[id]);
    forall r: string ensures Settled(FailedJob(s, id, code, s.controls[id]), r) == Settled(s, r) {
      ReleaseSettles(s, id, done, s.controls[id], r);
    }
  }

  lemma BeginKeeps(s: State, i: nat, saved: bool, again: bool)
    requires Inv(s) && i < |s.received|
    ensures Inv(Begun(s, i, saved, again)) && Unsettled(s, Begun(s, i, saved, again))
  {
    var id, t := s.received[i], s.(received := s.received[..i] + s.received[i + 1..]);
    DropKeeps(s, i);
    assert JobOk(t, id);
    if id in t.jobs && t.jobs[id].phase == Queued {
      if t.closed {
        CancelKeeps(t, id);
        PersistKeeps(CanceledJob(t, id), saved);
      } else {
        RunKeeps(t, id, saved, again);
      }
    }
  }

  lemma RunKeeps(s: State, id: nat, saved: bool, again: bool)
    requires Core(s) && id in s.jobs && s.jobs[id].phase == Queued && forall k: nat | k != id :: Waits(s, k)
    ensures var u := RunningJob(s, id);
      var t := if saved then Persisted(u, true) else Stopped(Persisted(FailedJob(u, id, NotPersisted, u.controls[id]), again), id);
      Inv(t) && Unsettled(s, t)
  {
    var u := RunningJob(s, id);
    RunningKeeps(s, id);
    forall k: nat ensures Waits(u, k) { assert k != id ==> Waits(s, k); }
    if saved {
      PersistKeeps(u, true);
    } else {
      FailKeeps(u, id, NotPersisted);
      var v := FailedJob(u, id, NotPersisted, u.controls[id]);
      PersistKeeps(v, again);
      StopKeeps(Persisted(v, again), id);
      forall k: nat ensures Waits(Stopped(Persisted(v, again), id), k) { assert Waits(u, k) && Waits(v, k); }
    }
  }

  lemma QueueKeeps(s: State)
    requires Inv(s) && |s.queue| < MAX_ACTIVE
    ensures Inv(s.(queue := s.queue + [s.nextId], nextId := s.nextId + 1))
  {
    var t := s.(queue := s.queue + [s.nextId], nextId := s.nextId + 1);
    forall k: nat ensures JobOk(t, k) && Waits(t, k) { assert JobOk(s, k) && Waits(s, k); }
    forall r: string ensures RecordingOk(t, r) { assert RecordingOk(s, r); }
  }

  lemma ReceiveKeeps(s: State)
    requires Inv(s) && s.queue != []
    ensures Inv(Received(s)) && Unsettled(s, Received(s))
  {
    var t := Received(s);
    assert forall k | k in t.queue || k in t.received :: k in s.queue || k in s.received;
    forall k: nat ensures JobOk(t, k) && Waits(t, k) {
      assert JobOk(s, k) && Waits(s, k);
      assert s.queue == [s.queue[0]] + s.queue[1..];
    }
    forall r: string ensures RecordingOk(t, r) && Settled(t, r) == Settled(s, r) { assert RecordingOk(s, r); }
  }

  // Admission ------------------------------------------------------------------------------

  lemma Without(order: seq<nat>, k: nat, rest: seq<nat>)
    requires Distinct(order) && k <= |order| && rest == if k < |order| then order[..k] + order[k + 1..] else order
    ensures Distinct(rest) && forall id: nat :: id in rest <==> id in order && (k < |order| ==> id != order[k])
  {
    if k < |order| {
      assert forall j | 0 <= j < |rest| :: rest[j] == order[if j < k then j else j + 1];
      forall id: nat | id in order && id != order[k] ensures id in rest {
        var j :| 0 <= j < |order| && order[j] == id;
        assert rest[if j < k then j else j - 1] == id;
      }
    }
  }

  lemma ForgetKeeps(s: State, k: nat, id: nat, rest: seq<nat>)
    requires Inv(s) && k < |s.order| && id == s.order[k] && id in s.jobs && !Active(s.jobs[id]) && rest == s.order[..k] + s.order[k + 1..]
    ensures var t := s.(jobs := s.jobs - {id}, order := rest); Inv(t) && Unsettled(s, t)
  {
    var t := s.(jobs := s.jobs - {id}, order := rest);
    Without(s.order, k, rest);
    forall j: nat ensures JobOk(t, j) && Waits(t, j) { assert JobOk(s, j) && Waits(s, j) && JobOk(s, id); }
    forall r: string ensures RecordingOk(t, r) && Settled(t, r) == Settled(s, r) {
      assert RecordingOk(s, r);
      if r in s.active { assert JobOk(s, s.active[r]); }
    }
  }

  lemma PruneKeeps(s: State)
    requires Inv(s) && !HistoryBlocks(s)
    ensures Inv(Pruned(s)) && Unsettled(s, Pruned(s)) && |Pruned(s).order| < MAX_HISTORY
  {
    var k := PruneIndex(s);
    if k < |s.order| { ForgetKeeps(s, k, s.order[k], s.order[..k] + s.order[k + 1..]); }
  }

  lemma AdmitKeeps(s: State, recording: string)
    requires Inv(s) && recording !in s.active && |s.active| < MAX_ACTIVE && |s.queue| < MAX_ACTIVE && |s.order| < MAX_HISTORY
    ensures Inv(Admitted(s, recording)) && Unsettled(s, Admitted(s, recording))
  {
    var t := Admitted(s, recording);
    assert JobOk(s, s.nextId);
    assert s.nextId !in s.order;
    forall j: nat ensures JobOk(t, j) && Waits(t, j) { assert JobOk(s, j) && Waits(s, j); }
    forall r: string ensures RecordingOk(t, r) && Settled(t, r) == Settled(s, r) {
      assert RecordingOk(s, r);
      if r in s.active { assert JobOk(s, s.active[r]); }
    }
  }

  /** A full history never refuses a job: it holds more jobs than can be active, so one of
      them is finished and makes room. */
  lemma HistoryNeverBlocks(s: State)
    requires Inv(s) && |s.active| < MAX_ACTIVE
    ensures !HistoryBlocks(s)
  {
    if HistoryBlocks(s) {
      forall i | 0 <= i < |s.order| ensures s.order[i] in s.active.Values {
        assert s.order[i] in s.order && JobOk(s, s.order[i]);
      }
      Crowd(s.order, s.active.Values);
      ValuesBound(s.active);
    }
  }

  lemma {:induction false} Crowd(order: seq<nat>, ids: set<nat>)
    requires Distinct(order) && forall i | 0 <= i < |order| :: order[i] in ids
    ensures |order| <= |ids|
  {
    if order != [] {
      var init, last := order[..|order| - 1], order[|order| - 1];
      Crowd(init, ids - {last});
    }
  }

  lemma {:induction false} ValuesBound(m: map<string, nat>)
    ensures |m.Values| <= |m|
    decreases |m|
  {
    if m.Keys != {} {
      var r :| r in m;
      var rest := m - {r};
      assert rest.Keys == m.Keys - {r};
      assert |rest| == |rest.Keys| && |m| == |m.Keys|;
      ValuesBound(rest);
      assert m.Values == rest.Values + {m[r]};
    } else {
      assert m.Values == {};
    }
  }

  lemma StartKeeps(s: State, recording: string, saved: bool)
    requires Inv(s)
    ensures Inv(Started(s, recording, saved).0) && Unsettled(s, Started(s, recording, saved).0)
  {
    if !s.closed && recording !in s.active && |s.active| < MAX_ACTIVE && !HistoryBlocks(s) && |s.queue| < MAX_ACTIVE {
      if saved {
        PruneKeeps(s);
        AdmitKeeps(Pruned(s), recording);
        PersistKeeps(Enqueued(s, recording), true);
      } else {
        QueueKeeps(s);
      }
    }
  }

  // Endings --------------------------------------------------------------------------------

  /** The verification of this job is accepted, saved, and becomes the recording's result. */
  predicate Lands(s: State, a: Action) {
    a.End? && !s.closed && a.verdict.Some? && a.saved && a.id in s.jobs && s.jobs[a.id].phase == Running
  }

  /** What a step does to the settled results: nothing, or it lands a verdict. */
  ghost predicate Lawful(s: State, a: Action, t: State) {
    forall r: string :: Settled(t, r) == (if Lands(s, a) && r == s.jobs[a.id].recording then a.verdict else Settled(s, r))
  }

  lemma EndKeeps(s: State, id: nat, verdict: Option<Outcome>, saved: bool, again: bool)
    requires Inv(s) && Enabled(s, End(id, verdict, saved, again))
    ensures Inv(Ended(s, id, verdict, saved, again)) && Lawful(s, End(id, verdict, saved, again), Ended(s, id, verdict, saved, again))
  {
    assert JobOk(s, id);
    if id in s.jobs && s.jobs[id].phase == Running {
      var done, after, write := EndReleases(s, id, verdict, saved, again);
      ReleaseEnds(s, id, done, after, write);
    } else {
      StopKeeps(s, id);
      forall k: nat ensures Waits(Stopped(s, id), k) { assert Waits(s, k); }
    }
  }

  /** How the job ends, and with which result for its recording. */
  lemma EndReleases(s: State, id: nat, verdict: Option<Outcome>, saved: bool, again: bool)
    returns (done: Job, after: Option<Outcome>, write: bool)
    requires Inv(s) && Enabled(s, End(id, verdict, saved, again)) && id in s.jobs && s.jobs[id].phase == Running && id in s.controls
    ensures Releases(s, id, done, after)
    ensures Ended(s, id, verdict, saved, again) == Persisted(Stopped(Release(s, id, done, after), id), write)
    ensures after == if Lands(s, End(id, verdict, saved, again)) then verdict else Settled(s, s.jobs[id].recording)
  {
    var job := s.jobs[id];
    after, write := Settled(s, job.recording), saved;
    if s.closed {
      done := job.(phase := Canceled, code := CanceledCode, result := None);
      CancelReleases(s, id);
      CancelCommutes(s, id);
    } else if verdict.None? {
      done := job.(phase := Failed, code := NotVerified, result := None);
      FailReleases(s, id, NotVerified);
      FailCommutes(s, id);
    } else if saved {
      done, after := job.(phase := Completed, code := NoCode, result := verdict), verdict;
      CompleteReleases(s, id, verdict.value);
      CompleteCommutes(s, id, verdict.value);
    } else {
      done, write := job.(phase := Failed, code := NotPersisted, result := None), again;
      UnpersistedReleases(s, id, verdict.value);
      CompleteCommutes(s, id, verdict.value);
    }
  }

  lemma CancelCommutes(s: State, id: nat)
    ensures CanceledJob(Stopped(s, id), id) == Stopped(CanceledJob(s, id), id)
  {
  }

  lemma FailCommutes(s: State, id: nat)
    requires id in s.jobs && id in s.controls
    ensures FailedJob(Stopped(s, id), id, NotVerified, s.controls[id]) == Stopped(FailedJob(s, id, NotVerified, s.controls[id]), id)
  {
  }

  lemma CompleteCommutes(s: State, id: nat, verdict: Outcome)
    requires id in s.jobs && id in s.controls
    ensures var t := Stopped(s, id);
      && CompletedJob(t, id, verdict) == Stopped(CompletedJob(s, id, verdict), id)
      && Unpersisted(t, CompletedJob(t, id, verdict), id) == Stopped(Unpersisted(s, CompletedJob(s, id, verdict), id), id)
  {
  }

  lemma ReleaseEnds(s: State, id: nat, done: Job, after: Option<Outcome>, write: bool)
    requires Inv(s) && id in s.verifying && Releases(s, id, done, after)
    ensures var t := Persisted(Stopped(Release(s, id, done, after), id), write);
      Inv(t) && forall r: string :: Settled(t, r) == (if r == done.recording then after else Settled(s, r))
  {
    var u := Release(s, id, done, after);
    ReleaseKeeps(s, id, done, after);
    StopKeeps(u, id);
    forall k: nat ensures Waits(Stopped(u, id), k) { assert Waits(s, k); }
    PersistKeeps(Stopped(u, id), write);
    forall r: string ensures Settled(u, r) == if r == done.recording then after else Settled(s, r) { ReleaseSettles(s, id, done, after, r); }
  }

  lemma CloseKeeps(s: State)
    requires Inv(s)
    ensures Inv(AllCanceled(s)) && Unsettled(s, AllCanceled(s))
  {
    var t := AllCanceled(s);
    forall k: nat ensures JobOk(t, k) && Waits(t, k) { assert JobOk(s, k) && Waits(s, k); }
    forall r: string ensures RecordingOk(t, r) && Settled(t, r) == Settled(s, r) {
      assert RecordingOk(s, r);
      if r in s.active { assert JobOk(s, s.active[r]); }
    }
    assert OrderOk(t);
  }

  /** Every step keeps the invariant, and changes a settled result only by landing a
      verdict: a job that is cancelled, fails, panics or cannot be saved leaves its
      recording's result exactly as it was. */
  lemma StepKeeps(s: State, a: Action)
    requires Inv(s) && Enabled(s, a)
    ensures Inv(Step(s, a)) && Lawful(s, a, Step(s, a))
  {
    match a
    case Start(recording, saved) => StartKeeps(s, recording, saved);
    case Receive => ReceiveKeeps(s);
    case Begin(i, saved, again) => BeginKeeps(s, i, saved, again);
    case End(id, verdict, saved, again) => EndKeeps(s, id, verdict, saved, again);
    case Leave => LeaveKeeps(s);
    case Cancel(id, saved) => CancelStepKeeps(s, id, saved);
    case Close(saved) => CloseStepKeeps(s, saved);
  }

  lemma CancelStepKeeps(s: State, id: nat, saved: bool)
    requires Inv(s) && Enabled(s, Cancel(id, saved))
    ensures Inv(Step(s, Cancel(id, saved))) && Lawful(s, Cancel(id, saved), Step(s, Cancel(id, saved)))
  {
    if id in s.jobs && Active(s.jobs[id]) {
      CancelKeeps(s, id);
      PersistKeeps(CanceledJob(s, id), saved);
    }
  }

  lemma CloseStepKeeps(s: State, saved: bool)
    requires Inv(s) && Enabled(s, Close(saved))
    ensures Inv(Step(s, Close(saved))) && Lawful(s, Close(saved), Step(s, Close(saved)))
  {
    CloseKeeps(s);
    PersistKeeps(AllCanceled(s), saved);
  }

  lemma LeaveKeeps(s: State)
    requires Inv(s) && s.leaving > 0
    ensures Inv(s.(leaving := s.leaving - 1, running := s.running - 1))
    ensures Unsettled(s, s.(leaving := s.leaving - 1, running := s.running - 1))
  {
    var t := s.(leaving := s.leaving - 1, running := s.running - 1);
    forall k: nat ensures JobOk(t, k) && Waits(t, k) { assert JobOk(s, k) && Waits(s, k); }
    forall r: string ensures RecordingOk(t, r) { assert RecordingOk(s, r); }
  }

  // Runs -----------------------------------------------------------------------------------

  predicate Run(states: seq<State>, actions: seq<Action>) {
    && |states| == |actions| + 1
    && forall i | 0 <= i < |actions| :: Enabled(states[i], actions[i]) && states[i + 1] == Step(states[i], actions[i])
  }

  /** The last verdict that landed for a recording within the first i steps. */
  function LastLanded(states: seq<State>, actions: seq<Action>, i: nat, r: string): Option<Outcome>
    requires i <= |actions| < |states|
  {
    if i == 0 then Settled(states[0], r)
    else if Lands(states[i - 1], actions[i - 1]) && states[i - 1].jobs[actions[i - 1].id].recording == r then actions[i - 1].verdict
    else LastLanded(states, actions, i - 1, r)
  }

  /** Over a whole run: the invariant holds throughout, and every recording's settled result
      is the last verdict that landed for it, or the one from before the run. */
  lemma {:induction false} RunKeepsResults(states: seq<State>, actions: seq<Action>, i: nat, r: string)
    requires Run(states, actions) && Inv(states[0]) && i <= |actions|
    ensures Inv(states[i]) && Settled(states[i], r) == LastLanded(states, actions, i, r)
  {
    if i > 0 {
      RunKeepsResults(states, actions, i - 1, r);
      StepKeeps(states[i - 1], actions[i - 1]);
    }
  }

  /** What the invariant promises a caller: one active job per recording at most, workers
      run distinct jobs, and a status reads "verifying" exactly while a job runs. */
  lemma InvariantMeans(s: State, j: nat, k: nat)
    requires Inv(s) && j in s.jobs && k in s.jobs
    ensures j != k && Active(s.jobs[j]) && Active(s.jobs[k]) ==> s.jobs[j].recording != s.jobs[k].recording
    ensures s.jobs[j].phase == Running <==>
      (&& s.jobs[j].recording in s.active && s.active[s.jobs[j].recording] == j
       && s.jobs[j].recording in s.results && s.results[s.jobs[j].recording].status == Verifying)
  {
    assert JobOk(s, j) && JobOk(s, k) && RecordingOk(s, s.jobs[j].recording);
  }

  // Restart --------------------------------------------------------------------------------

  predicate Interruptible(jobs: seq<Job>, r: string) { exists i | 0 <= i < |jobs| :: Active(jobs[i]) && jobs[i].recording == r }

  /** What every written state file satisfies: a result that reads "verifying" belongs to a
      job that restart will find. */
  predicate DiskOk(d: Disk) {
    && |d.jobs| <= MAX_HISTORY && DistinctIds(d.jobs)
    && forall r | r in d.results && d.results[r].status == Verifying :: Interruptible(d.jobs, r)
  }

  lemma {:induction false} InOrderIs(jobs: map<nat, Job>, order: seq<nat>)
    requires forall i | 0 <= i < |order| :: order[i] in jobs
    ensures |InOrder(jobs, order)| == |order| && forall i | 0 <= i < |order| :: InOrder(jobs, order)[i] == jobs[order[i]]
  {
    if order != [] { InOrderIs(jobs, order[..|order| - 1]); }
  }

  lemma SnapshotOk(s: State)
    requires Core(s)
    ensures DiskOk(Persisted(s, true).disk)
  {
    assert forall i | 0 <= i < |s.order| :: s.order[i] in s.order;
    InOrderIs(s.jobs, s.order);
    var d := Persisted(s, true).disk;
    forall i, j | 0 <= i < j < |d.jobs| ensures d.jobs[i].id != d.jobs[j].id { assert JobOk(s, s.order[i]) && JobOk(s, s.order[j]); }
    forall r | r in d.results && d.results[r].status == Verifying ensures Interruptible(d.jobs, r) {
      assert RecordingOk(s, r);
      var id := s.active[r];
      var i :| 0 <= i < |s.order| && s.order[i] == id;
      assert d.jobs[i] == s.jobs[id];
    }
  }

  function Interrupted1(j: Job): Job { if Active(j) then j.(phase := Failed, code := Interrupted, result := None) else j }

  predicate DistinctIds(jobs: seq<Job>) { forall i, j | 0 <= i < j < |jobs| :: jobs[i].id != jobs[j].id }

  /** load and recoverInterrupted; a file with too many or repeated jobs is refused. */
  function Reopened(d: Disk, nextId: nat): Option<State> {
    if |d.jobs| > MAX_HISTORY || !DistinctIds(d.jobs) then None else Some(Recovered(d, nextId))
  }

  function Recovered(d: Disk, nextId: nat): State
    requires DistinctIds(d.jobs)
  {
    var results := map r | r in d.results ::
      if d.results[r].status == Verifying && Interruptible(d.jobs, r) then Outcome(Unknown, []) else d.results[r];
    State(map i | 0 <= i < |d.jobs| :: d.jobs[i].id := Interrupted1(d.jobs[i]),
          seq(|d.jobs|, i requires 0 <= i < |d.jobs| => d.jobs[i].id), results, map[], map[], [], [], {}, 0, 0, false, nextId, d)
  }

  lemma RecoveredOrder(d: Disk, nextId: nat)
    requires DistinctIds(d.jobs) && |d.jobs| <= MAX_HISTORY
    ensures OrderOk(Recovered(d, nextId))
  {
    var s := Recovered(d, nextId);
    assert forall i | 0 <= i < |s.order| :: s.order[i] == d.jobs[i].id && s.order[i] in s.jobs;
    forall id: nat | id in s.jobs ensures id in s.order {
      var i :| 0 <= i < |d.jobs| && d.jobs[i].id == id;
      assert s.order[i] == id;
    }
  }

  lemma RecoveredJobs(d: Disk, nextId: nat)
    requires DistinctIds(d.jobs) && forall i | 0 <= i < |d.jobs| :: d.jobs[i].id < nextId
    ensures forall id: nat :: JobOk(Recovered(d, nextId), id) && Waits(Recovered(d, nextId), id)
  {
  }

  function Unstuck(d: Disk, r: string): Option<Outcome> {
    if r in d.results && d.results[r].status == Verifying then Some(Outcome(Unknown, [])) else Lookup(d.results, r)
  }

  /** A restart from any written file finds no active job and no result stuck at
      "verifying"; results of recordings that no job was verifying are untouched. */
  lemma RestartRecovers(d: Disk, nextId: nat)
    requires DiskOk(d) && forall i | 0 <= i < |d.jobs| :: d.jobs[i].id < nextId
    ensures Reopened(d, nextId).Some? && Inv(Reopened(d, nextId).value) && Reopened(d, nextId).value.active == map[]
    ensures forall r: string :: Lookup(Reopened(d, nextId).value.results, r) == Unstuck(d, r)
  {
    var s := Recovered(d, nextId);
    RecoveredOrder(d, nextId);
    RecoveredJobs(d, nextId);
    assert forall r: string :: RecordingOk(s, r);
  }

  /** The file is as before, or holds the present jobs and results. */
  predicate Written(s: State, t: State) { t.disk == s.disk || t.disk == Disk(InOrder(t.jobs, t.order), t.results) }

  lemma PersistWrites(s: State, t: State, saved: bool)
    requires t.disk == s.disk
    ensures Written(s, Persisted(t, saved))
  {
  }

  lemma BeginWrites(s: State, i: nat, saved: bool, again: bool)
    requires i < |s.received|
    ensures Written(s, Begun(s, i, saved, again))
  {
  }

  lemma EndWrites(s: State, id: nat, verdict: Option<Outcome>, saved: bool, again: bool)
    requires id in s.verifying
    ensures Written(s, Ended(s, id, verdict, saved, again))
  {
  }

  /** The state file stays recoverable over a run. */
  lemma StepKeepsDisk(s: State, a: Action)
    requires Inv(s) && Enabled(s, a) && DiskOk(s.disk)
    ensures DiskOk(Step(s, a).disk)
  {
    StepKeeps(s, a);
    if a.Begin? { BeginWrites(s, a.i, a.saved, a.again); }
    else if a.End? { EndWrites(s, a.id, a.verdict, a.saved, a.again); }
    else if a.Cancel? { PersistWrites(s, CanceledJob(s, a.id), a.saved); }
    else if a.Close? { PersistWrites(s, AllCanceled(s), a.saved); }
    assert Written(s, Step(s, a));
    SnapshotOk(Step(s, a));
  }

  /** Cancelling the active jobs one by one, in any order, cancels them all. */
  lemma CancelOneOfAll(s: State, r: string)
    requires Core(s) && r in s.active
    ensures CanceledJob(s, s.active[r]).active.Keys < s.active.Keys
    ensures Core(CanceledJob(s, s.active[r])) && AllCanceled(CanceledJob(s, s.active[r])) == AllCanceled(s)
  {
    var id := s.active[r];
    assert RecordingOk(s, r) && JobOk(s, id);
    CancelKeeps(s, id);
    SameJobs(s.jobs, id);
    SameResults(s, CanceledJob(s, id));
    SameAfter(s, CanceledJob(s, id), id, r);
  }

  lemma SameAfter(s: State, t: State, id: nat, r: string)
    requires id in s.jobs && Active(s.jobs[id]) && t == CanceledJob(s, id) && r in s.active && s.active[r] == id && s.jobs[id].recording == r
    requires CanceledJobs(t.jobs) == CanceledJobs(s.jobs) && SettledResults(t) == SettledResults(s)
    ensures AllCanceled(t) == AllCanceled(s) && t.active.Keys < s.active.Keys
  {
    assert r !in t.active;
  }

  lemma SameJobs(jobs: map<nat, Job>, id: nat)
    requires id in jobs && Active(jobs[id])
    ensures CanceledJobs(jobs[id := jobs[id].(phase := Canceled, code := CanceledCode, result := None)]) == CanceledJobs(jobs)
  {
  }

  lemma SameResults(s: State, t: State)
    requires Unsettled(s, t)
    ensures SettledResults(s) == SettledResults(t)
  {
    forall r: string ensures Settled(s, r) == Settled(t, r) {}
  }

  lemma Reclosed(s: State)
    requires Core(s)
    ensures Core(s.(closed := true)) && AllCanceled(s.(closed := true)) == AllCanceled(s)
  {
    var t := s.(closed := true);
    forall k: nat ensures JobOk(t, k) { assert JobOk(s, k); }
    forall r: string ensures RecordingOk(t, r) { assert RecordingOk(s, r); }
    assert Unsettled(s, t);
    SameResults(s, t);
  }

  lemma NoneLeft(s: State)
    requires Core(s) && s.closed && s.active == map[]
    ensures AllCanceled(s) == s
  {
    var t := AllCanceled(s);
    forall id | id in s.jobs ensures t.jobs[id] == s.jobs[id] { assert JobOk(s, id); }
    assert forall id: nat :: JobOk(s, id) ==> id !in s.controls;
    assert t.jobs == s.jobs && t.results == s.results && t.controls == s.controls;
  }

  lemma AddRemove<K, V>(m: map<K, V>, k: K, v: V)
    requires k !in m
    ensures m[k := v] - {k} == m
  {
  }

  // The service ----------------------------------------------------------------------------

  /** The service; every method body runs under its mutex. */
  class Service {
    var jobs: map<nat, Job>
    var order: seq<nat>
    var results: map<string, Outcome>
    var active: map<string, nat>
    var controls: map<nat, Option<Outcome>>
    var queue: seq<nat>
    var running: int
    var closed: bool
    var nextId: nat
    var disk: Disk
    ghost var received: seq<nat>
    ghost var verifying: set<nat>
    ghost var leaving: nat

    ghost function View(): State
      reads this
    {
      State(jobs, order, results, active, controls, queue, received, verifying, leaving, running, closed, nextId, disk)
    }

    constructor (nextId: nat, disk: Disk)
      requires DistinctIds(disk.jobs)
      ensures View() == Recovered(disk, nextId)
    {
      var s := Recovered(disk, nextId);
      jobs, order, results, active, controls, queue := s.jobs, s.order, s.results, s.active, s.controls, s.queue;
      running, closed := 0, false;
      this.nextId, this.disk := nextId, disk;
      received, verifying, leaving := [], {}, 0;
    }

    method Persist(saved: bool)
      modifies this
      ensures View() == Persisted(old(View()), saved)
    {
      if saved { disk := Disk(InOrder(jobs, order), results); }
    }

    method FinishJob(id: nat)
      requires id in jobs
      modifies this
      ensures View() == Finished(old(View()), id)
    {
      var recording := jobs[id].recording;
      if recording in active && active[recording] == id { active := active - {recording}; }
      controls := controls - {id};
    }

    method PutBack(recording: string, previous: Option<Outcome>)
      modifies this
      ensures View() == old(View()).(results := Restored(old(results), recording, previous))
    {
      if previous.None? { results := results - {recording}; } else { results := results[recording := previous.value]; }
    }

    method CancelJob(id: nat) returns (changed: bool)
      modifies this
      ensures View() == CanceledJob(old(View()), id) && changed == (id in old(jobs) && Active(old(jobs)[id]))
    {
      if id !in jobs || !Active(jobs[id]) { return false; }
      var job := jobs[id];
      if id in controls && job.phase == Running { PutBack(job.recording, controls[id]); }
      jobs := jobs[id := job.(phase := Canceled, code := CanceledCode, result := None)];
      FinishJob(id);
      return true;
    }

    method FailJob(id: nat, code: Code, previous: Option<Outcome>)
      requires id in jobs
      modifies this
      ensures View() == FailedJob(old(View()), id, code, previous)
    {
      PutBack(jobs[id].recording, previous);
      jobs := jobs[id := jobs[id].(phase := Failed, code := code, result := None)];
      FinishJob(id);
    }

    /** Start. The job is queued before it is written; a failed write undoes everything but that. */
    method Start(recording: string, saved: bool) returns (reply: Reply)
      requires nextId !in jobs && nextId !in controls
      modifies this
      ensures (View(), reply) == Started(old(View()), recording, saved)
    {
      if closed { return Closed; }
      if recording in active { return Existing(active[recording]); }
      if |active| >= MAX_ACTIVE { return Full; }
      var had := |order|;
      ghost var before := View();
      var pruned, prunedId, prunedJob := MakeRoom();
      if had >= MAX_HISTORY && pruned == had { return Full; }
      reply := Admit(recording, saved);
      if !reply.Accepted? && pruned < had { Unprune(pruned, prunedId, prunedJob, before); }
    }

    /** A full history forgets its oldest finished job. */
    method MakeRoom() returns (pruned: nat, prunedId: nat, prunedJob: Job)
      modifies this
      ensures View() == Pruned(old(View())) && pruned == PruneIndex(old(View()))
      ensures pruned < old(|order|) ==> prunedId == old(order)[pruned] && prunedJob == old(jobs)[prunedId]
    {
      pruned, prunedId, prunedJob := |order|, 0, Job(0, "", Queued, NoCode, None);
      if |order| >= MAX_HISTORY {
        pruned := Oldest();
        if pruned == |order| { return; }
        prunedId, prunedJob := order[pruned], jobs[order[pruned]];
        jobs, order := jobs - {prunedId}, order[..pruned] + order[pruned + 1..];
      }
    }

    /** Queue, register and write the job, or take it out again: its queue entry stays behind. */
    method Admit(recording: string, saved: bool) returns (reply: Reply)
      requires nextId !in jobs && nextId !in controls && recording !in active
      modifies this
      ensures reply == if old(|queue|) >= MAX_ACTIVE then Full else if saved then Accepted(old(nextId)) else NotSaved
      ensures View() == if old(|queue|) >= MAX_ACTIVE then old(View())
                        else if saved then Persisted(Admitted(old(View()), recording), true)
                        else old(View()).(queue := old(queue) + [old(nextId)], nextId := old(nextId) + 1)
    {
      if |queue| >= MAX_ACTIVE { return Full; }
      var id := nextId;
      ghost var before := View();
      Register(recording);
      if saved {
        Persist(true);
        return Accepted(id);
      }
      Withdraw(recording, before);
      return NotSaved;
    }

    method Register(recording: string)
      modifies this
      ensures View() == Admitted(old(View()), recording)
    {
      var id := nextId;
      queue, nextId := queue + [id], nextId + 1;
      jobs, order := jobs[id := Job(id, recording, Queued, NoCode, None)], order + [id];
      active, controls := active[recording := id], controls[id := None];
    }

    method Withdraw(recording: string, ghost before: State)
      requires View() == Admitted(before, recording)
      requires before.nextId !in before.jobs && before.nextId !in before.controls && recording !in before.active
      modifies this
      ensures View() == before.(queue := before.queue + [before.nextId], nextId := before.nextId + 1)
    {
      var id := order[|order| - 1];
      AddRemove(before.jobs, id, jobs[id]);
      AddRemove(before.active, recording, id);
      AddRemove(before.controls, id, None);
      jobs, order := jobs - {id}, order[..|order| - 1];
      active, controls := active - {recording}, controls - {id};
    }

    /** The forgotten entry is put back in its place. */
    method Unprune(k: nat, id: nat, job: Job, ghost before: State)
      requires k == PruneIndex(before) < |before.order| && id == before.order[k] && job == before.jobs[id]
      requires jobs == Pruned(before).jobs && order == Pruned(before).order
      modifies this
      ensures View() == old(View()).(jobs := before.jobs, order := before.order)
    {
      jobs := jobs[id := job];
      order := order[..k] + [id] + order[k..];
      assert jobs == before.jobs && order == before.order;
    }

    method Oldest() returns (k: nat)
      ensures k == FirstTerminal(jobs, order, 0)
    {
      k := 0;
      while k < |order| && (order[k] !in jobs || Active(jobs[order[k]]))
        invariant k <= |order| && FirstTerminal(jobs, order, 0) == FirstTerminal(jobs, order, k)
      {
        k := k + 1;
      }
    }

    /** The first half of run, for the i-th ID on its way to a worker: returns whether the
        verification shall start. */
    method Begin(id: nat, ghost i: nat, saved: bool, again: bool) returns (verify: bool)
      requires i < |received| && received[i] == id && JobOk(View(), id)
      modifies this
      ensures View() == Begun(old(View()), i, saved, again)
      ensures verify <==> id in jobs && jobs[id].phase == Running && old(id in jobs && jobs[id].phase == Queued)
    {
      received := received[..i] + received[i + 1..];
      if id !in jobs || jobs[id].phase != Queued || id !in controls { return false; }
      if closed {
        var _ := CancelJob(id);
        Persist(saved);
        return false;
      }
      Mark(id);
      Persist(saved);
      if !saved { GiveUp(id, again); }
      return saved;
    }

    method GiveUp(id: nat, again: bool)
      requires id in jobs && id in controls
      modifies this
      ensures View() == Stopped(Persisted(FailedJob(old(View()), id, NotPersisted, old(controls)[id]), again), id)
    {
      FailJob(id, NotPersisted, controls[id]);
      Persist(again);
      verifying, leaving := verifying - {id}, leaving + 1;
    }

    method Mark(id: nat)
      requires id in jobs && id in controls && controls[id] == None
      modifies this
      ensures View() == RunningJob(old(View()), id)
    {
      var recording := jobs[id].recording;
      jobs := jobs[id := jobs[id].(phase := Running)];
      running, verifying := running + 1, verifying + {id};
      if recording in results {
        controls := controls[id := Some(results[recording])];
        results := results[recording := results[recording].(status := Verifying)];
      } else {
        results := results[recording := Outcome(Verifying, [])];
      }
    }

    /** The second half of run; `verdict` is None after a panic. */
    method End(id: nat, verdict: Option<Outcome>, saved: bool, again: bool)
      requires id in verifying && JobOk(View(), id)
      modifies this
      ensures View() == Ended(old(View()), id, verdict, saved, again)
    {
      verifying, leaving := verifying - {id}, leaving + 1;
      if id !in jobs || jobs[id].phase != Running { return; }
      if closed {
        var _ := CancelJob(id);
        Persist(saved);
      } else if verdict.None? {
        FailJob(id, NotVerified, controls[id]);
        Persist(saved);
      } else {
        Land(id, verdict.value, saved, again);
      }
    }

    method Land(id: nat, verdict: Outcome, saved: bool, again: bool)
      requires id in jobs && id in controls
      modifies this
      ensures View() == var s, t := old(View()), CompletedJob(old(View()), id, verdict);
        if saved then Persisted(t, true) else Persisted(Unpersisted(s, t, id), again)
    {
      var previous := controls[id];
      Complete(id, verdict);
      Persist(saved);
      if !saved {
        PutBack(jobs[id].recording, previous);
        jobs := jobs[id := jobs[id].(phase := Failed, code := NotPersisted, result := None)];
        Persist(again);
      }
    }

    method Complete(id: nat, verdict: Outcome)
      requires id in jobs
      modifies this
      ensures View() == CompletedJob(old(View()), id, verdict)
    {
      jobs := jobs[id := jobs[id].(phase := Completed, code := NoCode, result := Some(verdict))];
      results := results[jobs[id].recording := verdict];
      FinishJob(id);
    }

    /** Cancel, for a job that is known; a finished job is left alone. */
    method Cancel(id: nat, saved: bool)
      modifies this
      ensures View() == Step(old(View()), Action.Cancel(id, saved))
    {
      var changed := CancelJob(id);
      if changed { Persist(saved); }
    }

    /** finishRunning */
    method Leave()
      requires Inv(View()) && leaving > 0
      modifies this
      ensures View() == Step(old(View()), Action.Leave)
    {
      if running > 0 { running := running - 1; }
      leaving := leaving - 1;
    }

    /** Close, up to waiting for the workers. */
    method Close(saved: bool)
      requires Core(View())
      modifies this
      ensures View() == Step(old(View()), Action.Close(saved))
    {
      if closed { return; }
      Reclosed(View());
      closed := true;
      CancelAll();
      Persist(saved);
    }

    method CancelAll()
      requires Core(View()) && closed
      modifies this
      ensures View() == AllCanceled(old(View()))
    {
      while active.Keys != {}
        invariant Core(View()) && closed && AllCanceled(View()) == AllCanceled(old(View()))
        decreases active.Keys
      {
        var r :| r in active;
        CancelOneOfAll(View(), r);
        var _ := CancelJob(active[r]);
      }
      NoneLeft(View());
    }
  }
}
