/** One pause request between the Host's caller and the recording's worker, down to
    the signals they exchange: who waits for whom, and when a timed out pause
    returns. */
module PauseRace {
  datatype Operation = Requested | Draining | Paused | Resuming | Aborted

  datatype Worker =
    /** In a poll loop; it looks at the operation at its next boundary. */
    | Cycling
    /** The scheduler is closed and the pause is published; the operation is not read yet. */
    | Published
    /** Waiting for `resume`. */
    | Parked

  datatype Caller = Waiting | AwaitingResumed | Returned

  /** `installed` is e.handover == op; the last three are closed channels and the caller's deadline. */
  datatype State = State(
    operation: Operation, installed: bool, worker: Worker, caller: Caller,
    paused: bool, resume: bool, resumed: bool, expired: bool)

  datatype Action = WorkerSees | DrainFails | DrainEnds | WorkerReads | WorkerResumes | CallerPaused | CallerExpires | CallerResumed | Deadline

  predicate Enabled(s: State, a: Action) {
    match a
    case WorkerSees => s.worker == Cycling && s.installed && s.operation == Requested
    case DrainFails => s.worker == Cycling && s.installed && s.operation == Draining && s.expired
    case DrainEnds => s.worker == Cycling && s.installed && s.operation == Draining
    case WorkerReads => s.worker == Published
    case WorkerResumes => s.worker == Parked && s.resume
    case CallerPaused => s.caller == Waiting && s.paused
    case CallerExpires => s.caller == Waiting && s.expired
    case CallerResumed => s.caller == AwaitingResumed && s.resumed
    case Deadline => !s.expired
  }

  function Step(s: State, a: Action): State
    requires Enabled(s, a)
  {
    match a
    case WorkerSees =>
      if s.expired then s.(operation := Aborted, installed := false, resumed := true) else s.(operation := Draining)
    case DrainFails => s.(operation := Aborted, installed := false, resumed := true)
    case DrainEnds =>
      if s.expired then s.(operation := Resuming, installed := false, paused := true, resume := true, worker := Published)
      else s.(operation := Paused, paused := true, worker := Published)
    case WorkerReads => if s.installed then s.(worker := Parked) else s.(worker := Cycling)
    case WorkerResumes => s.(worker := Cycling, resumed := true, installed := false)
    case CallerPaused => s.(caller := Returned)
    case CallerExpires =>
      if s.installed && s.operation == Paused
      then s.(operation := Resuming, installed := false, resume := true, caller := AwaitingResumed)
      else s.(caller := Returned)
    case CallerResumed => s.(caller := Returned)
    case Deadline => s.(expired := true)
  }

  function Fresh(): State { State(Requested, true, Cycling, Waiting, false, false, false, false) }

  ghost predicate Reaches(s: State, actions: seq<Action>, t: State)
    decreases |actions|
  {
    if actions == [] then s == t
    else Enabled(s, actions[0]) && Reaches(Step(s, actions[0]), actions[1..], t)
  }

  /** What holds throughout one request. */
  predicate Inv(s: State) {
    && (s.worker == Parked ==> s.operation == Paused || s.operation == Resuming)
    && (s.installed ==> s.operation == Requested || s.operation == Draining || s.operation == Paused)
    && (s.caller == AwaitingResumed ==> s.operation == Resuming && s.resume && !s.installed)
    && (s.worker != Cycling ==> s.operation == Paused || s.operation == Resuming)
    && (s.operation == Paused ==> s.paused && (s.worker != Cycling) && s.installed)
    && (s.resume ==> s.operation == Resuming)
    && (s.resumed ==> s.worker == Cycling && !s.installed && (s.operation == Aborted || s.operation == Resuming))
  }

  lemma StepKeeps(s: State, a: Action)
    requires Inv(s) && Enabled(s, a)
    ensures Inv(Step(s, a))
  {
  }

  /** The caller has taken back a pause that the worker had published but not read. */
  predicate Stuck(s: State) {
    s.caller == AwaitingResumed && !s.resumed && s.worker != Parked && !s.installed
  }

  lemma {:induction false} StuckForever(s: State, actions: seq<Action>, t: State)
    requires Inv(s) && Stuck(s) && Reaches(s, actions, t)
    ensures Stuck(t)
    decreases |actions|
  {
    if actions != [] {
      StepKeeps(s, actions[0]);
      StuckForever(Step(s, actions[0]), actions[1..], t);
    }
  }

  /** A waiting caller that is not stuck gets its answer from the worker's next steps. */
  lemma UnstuckReturns(s: State)
    requires Inv(s) && s.caller == AwaitingResumed && !Stuck(s)
    ensures exists actions, t :: Reaches(s, actions, t) && t.caller == Returned
  {
    if s.resumed {
      var t := Step(s, CallerResumed);
      assert [CallerResumed][1..] == [];
      assert Reaches(t, [], t);
      assert Reaches(s, [CallerResumed], t);
    } else {
      var u := Step(s, WorkerResumes);
      var t := Step(u, CallerResumed);
      assert [WorkerResumes, CallerResumed][1..] == [CallerResumed] && [CallerResumed][1..] == [];
      assert Reaches(t, [], t);
      assert Reaches(u, [CallerResumed], t);
      assert Reaches(s, [WorkerResumes, CallerResumed], t);
    }
  }

  /** A timed out pause returns exactly when the worker had parked, that is, had
      read the operation, before the caller took it back. */
  lemma TimedOutPauseReturnsIff(s: State)
    requires Inv(s) && Enabled(s, CallerExpires)
    ensures var t := Step(s, CallerExpires);
      (t.caller == Returned || exists actions, u :: Reaches(t, actions, u) && u.caller == Returned) <==>
      !(s.installed && s.operation == Paused && s.worker == Published)
  {
    var t := Step(s, CallerExpires);
    StepKeeps(s, CallerExpires);
    if s.installed && s.operation == Paused && s.worker == Published {
      if actions, u :| Reaches(t, actions, u) && u.caller == Returned {
        StuckForever(t, actions, u);
        assert false;
      }
    } else if t.caller == AwaitingResumed {
      UnstuckReturns(t);
    }
  }

  /** A request that is in time parks the worker and answers its caller. */
  lemma {:induction false} InTimePauses(s: State)
    requires Inv(s) && s.worker == Cycling && s.installed && s.operation == Requested && !s.expired && s.caller == Waiting
    ensures exists t :: Reaches(s, [WorkerSees, DrainEnds, WorkerReads, CallerPaused], t)
                        && t.worker == Parked && t.operation == Paused && t.installed && t.caller == Returned
  {
    var a := Step(s, WorkerSees);
    var b := Step(a, DrainEnds);
    var c := Step(b, WorkerReads);
    var t := Step(c, CallerPaused);
    assert Reaches(t, [], t);
    assert [CallerPaused][1..] == [] && [WorkerReads, CallerPaused][1..] == [CallerPaused];
    assert [DrainEnds, WorkerReads, CallerPaused][1..] == [WorkerReads, CallerPaused];
    assert [WorkerSees, DrainEnds, WorkerReads, CallerPaused][1..] == [DrainEnds, WorkerReads, CallerPaused];
    assert Reaches(c, [CallerPaused], t) && Reaches(b, [WorkerReads, CallerPaused], t);
    assert Reaches(a, [DrainEnds, WorkerReads, CallerPaused], t);
  }

  /** The worker is at work, no request is installed, and whoever waits for it is told. */
  predicate Refused(s: State) { s.worker == Cycling && !s.installed && (s.resumed || s.resume) }

  /** A request that is late never parks the worker: whichever way it looks at the request,
      it is back at work at the latest after its next read. */
  lemma {:induction false} LateIsRefused(s: State, a: Action)
    requires Inv(s) && Enabled(s, a) && s.expired && (a == WorkerSees || a == DrainFails || a == DrainEnds)
    ensures var t := Step(s, a); Refused(t) || (Enabled(t, WorkerReads) && Refused(Step(t, WorkerReads)) && t.paused)
    ensures Step(s, a).worker == Published <==> a == DrainEnds
  {
  }

  /** The race is reachable: the deadline passes between the published pause and the
      worker's next look at the operation. */
  lemma RaceIsReachable()
    ensures exists t :: Reaches(Fresh(), [WorkerSees, DrainEnds, Deadline, CallerExpires, WorkerReads], t) && Stuck(t) && t.worker == Cycling
  {
    var s1 := Step(Fresh(), WorkerSees);
    var s2 := Step(s1, DrainEnds);
    var s3 := Step(s2, Deadline);
    var s4 := Step(s3, CallerExpires);
    var t := Step(s4, WorkerReads);
    assert Reaches(t, [], t);
    assert [WorkerReads][1..] == [];
    assert Reaches(s4, [WorkerReads], t);
    assert [CallerExpires, WorkerReads][1..] == [WorkerReads];
    assert Reaches(s3, [CallerExpires, WorkerReads], t);
    assert [Deadline, CallerExpires, WorkerReads][1..] == [CallerExpires, WorkerReads];
    assert Reaches(s2, [Deadline, CallerExpires, WorkerReads], t);
    assert [DrainEnds, Deadline, CallerExpires, WorkerReads][1..] == [Deadline, CallerExpires, WorkerReads];
    assert Reaches(s1, [DrainEnds, Deadline, CallerExpires, WorkerReads], t);
    assert [WorkerSees, DrainEnds, Deadline, CallerExpires, WorkerReads][1..] == [DrainEnds, Deadline, CallerExpires, WorkerReads];
  }
}
