/** The life of an integrity job, step by step, and the answers of Start. */
module JobLife {
  import opened IntegrityJobs

  predicate Unfinished(j: Job) { j.phase == Queued || j.phase == Running }

  /** A worker decides about the queued job `id`. */
  predicate Begins(s: State, a: Action, id: nat)
    requires id in s.jobs
  {
    a.Begin? && a.i < |s.received| && s.received[a.i] == id && s.jobs[id].phase == Queued
  }

  /** What a step makes of a job. */
  function After(s: State, a: Action, id: nat): Job
    requires id in s.jobs
  {
    var j := s.jobs[id];
    var canceled, failed := Job(j.id, j.recording, Canceled, CanceledCode, None), Job(j.id, j.recording, Failed, NotPersisted, None);
    if Begins(s, a, id) then
      if s.closed then canceled else if a.saved then Job(j.id, j.recording, Running, j.code, j.result) else failed
    else if a.End? && a.id == id && j.phase == Running then
      if s.closed then canceled
      else if a.verdict.None? then failed.(code := NotVerified)
      else if a.saved then Job(j.id, j.recording, Completed, NoCode, a.verdict) else failed
    else if Unfinished(j) && ((a.Cancel? && a.id == id) || (a.Close? && !s.closed)) then canceled
    else j
  }

  lemma {:induction false} OthersBegin(s: State, i: nat, saved: bool, again: bool, id: nat)
    requires i < |s.received| && id in s.jobs && s.received[i] != id
    ensures id in Begun(s, i, saved, again).jobs && Begun(s, i, saved, again).jobs[id] == s.jobs[id]
  {
  }

  lemma {:induction false} OwnBegin(s: State, i: nat, saved: bool, again: bool, id: nat)
    requires i < |s.received| && s.received[i] == id && JobOk(s, id) && id in s.jobs
    ensures id in Begun(s, i, saved, again).jobs
    ensures Begun(s, i, saved, again).jobs[id] == After(s, Begin(i, saved, again), id)
  {
  }

  lemma {:induction false} BeginSteps(s: State, a: Action, id: nat)
    requires Inv(s) && Enabled(s, a) && a.Begin? && id in s.jobs
    ensures id in Step(s, a).jobs && Step(s, a).jobs[id] == After(s, a, id)
  {
    if s.received[a.i] == id {
      assert JobOk(s, id);
      OwnBegin(s, a.i, a.saved, a.again, id);
    } else {
      OthersBegin(s, a.i, a.saved, a.again, id);
    }
  }

  lemma {:induction false} EndSteps(s: State, a: Action, id: nat)
    requires Inv(s) && Enabled(s, a) && a.End? && id in s.jobs
    ensures id in Step(s, a).jobs && Step(s, a).jobs[id] == After(s, a, id)
  {
    assert JobOk(s, id) && JobOk(s, a.id);
  }

  /** Whether Start answers with a new job. */
  predicate Admits(s: State, a: Action) {
    a.Start? && a.saved && !s.closed && a.recording !in s.active && |s.active| < 64 && |s.queue| < 64
  }

  /** The job is the oldest finished one of a full history. */
  predicate MakesRoom(s: State, id: nat) {
    |s.order| >= 5000 && exists k | 0 <= k < |s.order| ::
      s.order[k] == id && id in s.jobs && !Unfinished(s.jobs[id])
      && forall j | 0 <= j < k :: s.order[j] in s.jobs ==> Unfinished(s.jobs[s.order[j]])
  }

  /** The job that pruning forgets is the first finished one in order. */
  lemma {:induction false} PruneIndexIs(s: State, id: nat)
    requires |s.order| >= 5000 && PruneIndex(s) < |s.order| && Distinct(s.order) && id in s.jobs
    ensures MakesRoom(s, id) <==> id == s.order[PruneIndex(s)]
  {
    var k := PruneIndex(s);
    if MakesRoom(s, id) {
      var i :| 0 <= i < |s.order| && s.order[i] == id && !Unfinished(s.jobs[id])
        && forall j | 0 <= j < i :: s.order[j] in s.jobs ==> Unfinished(s.jobs[s.order[j]]);
      assert i == k;
    }
  }

  lemma {:induction false} PruneSteps(s: State, id: nat)
    requires Inv(s) && !HistoryBlocks(s) && id in s.jobs
    ensures if MakesRoom(s, id) then id !in Pruned(s).jobs else id in Pruned(s).jobs && Pruned(s).jobs[id] == s.jobs[id]
  {
    if |s.order| >= 5000 { PruneIndexIs(s, id); }
  }

  lemma {:induction false} StartSteps(s: State, a: Action, id: nat)
    requires Inv(s) && a.Start? && id in s.jobs
    ensures var t := Step(s, a);
      if Admits(s, a) && MakesRoom(s, id) then id !in t.jobs else id in t.jobs && t.jobs[id] == s.jobs[id]
  {
    assert JobOk(s, id) && JobOk(s, s.nextId);
    if Admits(s, a) {
      HistoryNeverBlocks(s);
      PruneSteps(s, id);
    }
  }

  lemma {:induction false} OtherSteps(s: State, a: Action, id: nat)
    requires Inv(s) && Enabled(s, a) && (a.Receive? || a.Leave? || a.Cancel? || a.Close?) && id in s.jobs
    ensures id in Step(s, a).jobs && Step(s, a).jobs[id] == After(s, a, id)
  {
    assert JobOk(s, id);
    if a.Cancel? { CancelSteps(s, a.id, a.saved, id); }
  }

  lemma {:induction false} CancelSteps(s: State, c: nat, saved: bool, id: nat)
    requires id in s.jobs
    ensures var t := Step(s, Cancel(c, saved)); id in t.jobs && t.jobs[id] == After(s, Cancel(c, saved), id)
  {
  }

  /** The life of a job: queued, running, and then completed, failed or cancelled for good. It
      leaves the history only if a new job needs room and it is the oldest finished one. */
  lemma {:induction false} JobSteps(s: State, a: Action, id: nat)
    requires Inv(s) && Enabled(s, a) && id in s.jobs
    ensures var t := Step(s, a);
      if Admits(s, a) && MakesRoom(s, id) then id !in t.jobs else id in t.jobs && t.jobs[id] == After(s, a, id)
  {
    if a.Start? { StartSteps(s, a, id); }
    else if a.Begin? { BeginSteps(s, a, id); }
    else if a.End? { EndSteps(s, a, id); }
    else { OtherSteps(s, a, id); }
  }

  /** How Start answers: a closed service refuses; a recording with an unfinished job gets that
      job back; 64 unfinished jobs, or 64 queue entries, are too many. */
  lemma {:induction false} StartReplies(s: State, recording: string, saved: bool)
    requires Inv(s)
    ensures var reply := Started(s, recording, saved).1;
      && (reply == Reply.Closed <==> s.closed)
      && (forall id | id in s.jobs && Unfinished(s.jobs[id]) && s.jobs[id].recording == recording && !s.closed :: reply == Existing(id))
      && (forall id | reply == Existing(id) :: id in s.jobs && Unfinished(s.jobs[id]) && s.jobs[id].recording == recording)
      && (reply == Reply.Full <==> !s.closed && recording !in s.active && (|s.active| >= 64 || |s.queue| >= 64))
      && (reply.Accepted? ==> saved && reply.id == s.nextId) && (reply == NotSaved ==> !saved)
  {
    forall id | id in s.jobs && Unfinished(s.jobs[id]) && s.jobs[id].recording == recording
      ensures recording in s.active && s.active[recording] == id
    {
      assert JobOk(s, id);
    }
    if recording in s.active { assert RecordingOk(s, recording) && JobOk(s, s.active[recording]); }
    if |s.active| < 64 { HistoryNeverBlocks(s); }
  }

  /** What Start changes: a new job is queued if it could be saved; if not, only its queue entry
      stays; any other answer changes nothing. */
  lemma {:induction false} StartChanges(s: State, recording: string, saved: bool)
    ensures var (t, reply) := Started(s, recording, saved);
      && (reply.Accepted? ==> s.nextId in t.jobs && t.jobs[s.nextId] == Job(s.nextId, recording, Queued, NoCode, None))
      && (reply.Accepted? || reply == NotSaved ==> t.queue == s.queue + [s.nextId] && t.nextId == s.nextId + 1)
      && (reply == NotSaved ==> t.jobs == s.jobs && t.results == s.results && t.disk == s.disk && t.active == s.active)
      && (reply.Accepted? || reply == NotSaved || t == s)
  {
  }

  lemma {:induction false} BeginTravels(s: State, i: nat, saved: bool, again: bool)
    requires i < |s.received|
    ensures var t := Begun(s, i, saved, again);
      t.queue == s.queue && t.received == s.received[..i] + s.received[i + 1..] && t.closed == s.closed
  {
  }

  lemma {:induction false} EndTravels(s: State, id: nat, verdict: Option<Outcome>, saved: bool, again: bool)
    requires id in s.verifying
    ensures var t := Ended(s, id, verdict, saved, again); t.queue == s.queue && t.received == s.received && t.closed == s.closed
  {
  }

  /** How job IDs travel: a worker receives the oldest one, and gives up the one it decides about. */
  lemma {:induction false} Travels(s: State, a: Action)
    requires Enabled(s, a)
    ensures var t := Step(s, a);
      && (a.Receive? ==> s.queue == [s.queue[0]] + t.queue && t.received == s.received + [s.queue[0]])
      && (a.Begin? ==> t.queue == s.queue && t.received == s.received[..a.i] + s.received[a.i + 1..])
      && (!a.Receive? && !a.Start? ==> t.queue == s.queue)
      && (!a.Receive? && !a.Begin? ==> t.received == s.received)
      && (t.closed <==> s.closed || a.Close?)
  {
    if a.Receive? { assert s.queue == [s.queue[0]] + s.queue[1..]; }
    else if a.Begin? { BeginTravels(s, a.i, a.saved, a.again); }
    else if a.End? { EndTravels(s, a.id, a.verdict, a.saved, a.again); }
  }

  lemma {:induction false} StartsAndReceives(s: State, recording: string) returns (t: State)
    requires Inv(s) && !s.closed && recording !in s.active && |s.active| < 64 && s.queue == []
    ensures Step(s, Start(recording, true)).queue != [] && t == Step(Step(s, Start(recording, true)), Receive)
    ensures Inv(t) && !t.closed && t.received == s.received + [s.nextId] && s.nextId in t.jobs
    ensures t.jobs[s.nextId] == Job(s.nextId, recording, Queued, NoCode, None)
  {
    var a := Step(s, Start(recording, true));
    StartReplies(s, recording, true);
    StartChanges(s, recording, true);
    StepKeeps(s, Start(recording, true));
    Travels(s, Start(recording, true));
    t := Step(a, Receive);
    StepKeeps(a, Receive);
    Travels(a, Receive);
    JobSteps(a, Receive, s.nextId);
  }

  /** These actions lead from `s` to `t`. */
  ghost predicate Leads(s: State, t: State, actions: seq<Action>) {
    exists states :: Run(states, actions) && states[0] == s && states[|actions|] == t
  }

  lemma {:induction false} Verifies(s: State, id: nat, verdict: Outcome) returns (t: State)
    requires Inv(s) && !s.closed && id in s.jobs && s.jobs[id].phase == Running && verdict.status != Verifying
    ensures Enabled(s, End(id, Some(verdict), true, true)) && t == Step(s, End(id, Some(verdict), true, true)) && Inv(t)
    ensures id in t.jobs && t.jobs[id] == Job(id, s.jobs[id].recording, Completed, NoCode, Some(verdict))
    ensures Settled(t, s.jobs[id].recording) == Some(verdict)
  {
    assert JobOk(s, id);
    t := Step(s, End(id, Some(verdict), true, true));
    JobSteps(s, End(id, Some(verdict), true, true), id);
    StepKeeps(s, End(id, Some(verdict), true, true));
  }

  lemma {:induction false} BeginsToRun(s: State, id: nat, i: nat) returns (t: State)
    requires Inv(s) && !s.closed && i < |s.received| && s.received[i] == id && id in s.jobs && s.jobs[id].phase == Queued
    ensures t == Step(s, Begin(i, true, true)) && Inv(t) && !t.closed
    ensures id in t.jobs && t.jobs[id].phase == Running && t.jobs[id].recording == s.jobs[id].recording
  {
    t := Step(s, Begin(i, true, true));
    JobSteps(s, Begin(i, true, true), id);
    StepKeeps(s, Begin(i, true, true));
    Travels(s, Begin(i, true, true));
  }

  /** Without faults a new job is verified: started on an open service with room and nothing
      else queued, it is received, runs and completes, and its verdict is the recording's result. */
  lemma {:induction false} JobCompletes(s: State, recording: string, verdict: Outcome) returns (t: State)
    requires Inv(s) && !s.closed && recording !in s.active && |s.active| < 64 && s.queue == [] && verdict.status != Verifying
    ensures Leads(s, t, [Start(recording, true), Receive, Begin(|s.received|, true, true), End(s.nextId, Some(verdict), true, true)])
    ensures s.nextId in t.jobs && t.jobs[s.nextId] == Job(s.nextId, recording, Completed, NoCode, Some(verdict))
    ensures Settled(t, recording) == Some(verdict)
  {
    var a := Step(s, Start(recording, true));
    var b := StartsAndReceives(s, recording);
    var c := BeginsToRun(b, s.nextId, |s.received|);
    t := Verifies(c, s.nextId, verdict);
    Chains(s, a, b, c, t, Start(recording, true), Receive, Begin(|s.received|, true, true), End(s.nextId, Some(verdict), true, true));
  }

  lemma {:induction false} Chains(s: State, a: State, b: State, c: State, t: State, w: Action, x: Action, y: Action, z: Action)
    requires Enabled(s, w) && a == Step(s, w) && Enabled(a, x) && b == Step(a, x)
    requires Enabled(b, y) && c == Step(b, y) && Enabled(c, z) && t == Step(c, z)
    ensures Leads(s, t, [w, x, y, z])
  {
    assert Run([s, a, b, c, t], [w, x, y, z]);
  }
}
