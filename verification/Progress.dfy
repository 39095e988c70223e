/** What the steps of acquisition achieve: from every state in which nothing fails, the
    task at the head of the list is archived, a failed download is tried again or becomes
    a gap, a task of an old source waits for the playlist it needs, and a stream that has
    ended completes the recording. */
module Progress {
  import opened Archive
  import opened TaskTable
  import opened Acquisition
  import A = Accounting
  import D = Departures

  /** Some `n` steps lead from `s` to `t`. */
  ghost predicate Leads(s: State, t: State, n: nat) {
    exists states, actions :: Run(states, actions) && |actions| == n && states[0] == s && states[n] == t
  }

  lemma {:induction false} One(s: State, a: Action, t: State)
    requires Step(s, a, t)
    ensures Leads(s, t, 1)
  {
    assert Run([s, t], [a]);
  }

  lemma {:induction false} Joins(first: seq<State>, before: seq<Action>, second: seq<State>, after: seq<Action>)
    requires Run(first, before) && Run(second, after) && first[|before|] == second[0]
    ensures Run(first + second[1..], before + after)
  {
    var states, actions := first + second[1..], before + after;
    forall i | 0 <= i < |actions| ensures Step(states[i], actions[i], states[i + 1]) {
      if i < |before| { assert Step(first[i], before[i], first[i + 1]); }
      else { assert Step(second[i - |before|], after[i - |before|], second[i - |before| + 1]); }
    }
  }

  lemma {:induction false} Then(s: State, t: State, u: State, m: nat, n: nat)
    requires Leads(s, t, m) && Leads(t, u, n)
    ensures Leads(s, u, m + n)
  {
    var first, before :| Run(first, before) && |before| == m && first[0] == s && first[m] == t;
    var second, after :| Run(second, after) && |after| == n && second[0] == t && second[n] == u;
    Joins(first, before, second, after);
    assert (first + second[1..])[m + n] == u;
  }

  // One task ------------------------------------------------------------------------------------

  /** A worker of a running scheduler is at this stage with the task of `r`. */
  ghost predicate Works(s: State, w: Worker, r: Ref, stage: Stage) {
    && w in s.pool.crew && w.Busy? && w.ref == r && w.stage == stage
    && Live(s.table.tasks, r) && !s.canceled && !s.table.closed
  }

  /** Of the table and the root, at most the task and the records of `k` changed. */
  ghost predicate Only(s: State, t: State, k: Key) {
    && (forall l | l != k :: (l in s.table.tasks <==> l in t.table.tasks) && (l in s.table.tasks ==> t.table.tasks[l] == s.table.tasks[l]))
    && (forall l | l != k :: (l in s.book.ledger.captured <==> l in t.book.ledger.captured)
                             && (l in s.book.ledger.gapped <==> l in t.book.ledger.gapped)
                             && (l in s.book.ledger.pending <==> l in t.book.ledger.pending))
    && t.poll == s.poll && t.media == s.media && t.book.root == s.book.root
  }

  ghost predicate TaskIs(s: State, r: Ref, task: Task) { r.key in s.table.tasks && s.table.tasks[r.key] == task }

  // The download that succeeds --------------------------------------------------------------------

  lemma {:induction false} Takes(s: State, w: Worker, r: Ref, task: Task) returns (t: State, b: Worker)
    requires CanTake(s, w) && s.table.ready[0] == r && Live(s.table.tasks, r) && TaskIs(s, r, task) && task.phase == Queued
    ensures Leads(s, t, 1) && Works(t, b, r, Gate) && b.burst == w.burst && Only(s, t, r.key) && TaskIs(t, r, task.(phase := InFlight))
  {
    t, b := Take(s, w), Busy(w.burst, r, Gate);
    One(s, ATake(w), t);
  }

  lemma {:induction false} Enters(s: State, w: Worker, r: Ref, task: Task) returns (t: State, b: Worker)
    requires Works(s, w, r, Gate) && TaskIs(s, r, task) && task.observed && task.observedGen == s.media && task.requiredGen <= s.media
    ensures Leads(s, t, 1) && Works(t, b, r, Fetch(s.media, task.cycles)) && b.burst == w.burst && Only(s, t, r.key) && TaskIs(t, r, task)
  {
    t, b := Enter(s, w), w.(stage := Fetch(s.media, task.cycles));
    One(s, AEnter(w), t);
  }

  lemma {:induction false} Downloads(s: State, w: Worker, r: Ref) returns (t: State, b: Worker)
    requires w.Busy? && w.stage.Fetch? && Works(s, w, r, w.stage)
    ensures Leads(s, t, 1) && Works(t, b, r, Submit) && b.burst == w.burst && Only(s, t, r.key)
  {
    t, b := FetchEnd(s, w, Complete), w.(stage := Submit);
    One(s, AFetchEnd(w, Complete), t);
  }

  lemma {:induction false} Submits(s: State, w: Worker, r: Ref) returns (t: State, b: Worker)
    requires Works(s, w, r, Submit)
    ensures Leads(s, t, 1) && Works(t, b, r, Submitted) && b.burst == w.burst && Only(s, t, r.key) && Job(r, false) in t.pool.jobs
  {
    t, b := SubmitEnd(s, w, Accepted), w.(stage := Submitted);
    One(s, ASubmitEnd(w, Accepted), t);
  }

  lemma {:induction false} Marks(s: State, w: Worker, r: Ref) returns (t: State, b: Worker)
    requires Works(s, w, r, Submitted) && Job(r, false) in s.pool.jobs
    ensures Leads(s, t, 1) && Works(t, b, r, Leaving(PersistQueued)) && b.burst == w.burst && Only(s, t, r.key) && Job(r, false) in t.pool.jobs
  {
    t, b := MarkPersisting(s, w), w.(stage := Leaving(PersistQueued));
    One(s, AMarkPersisting(w), t);
  }

  lemma {:induction false} Frees(s: State, w: Worker, r: Ref) returns (t: State)
    requires Works(s, w, r, Leaving(PersistQueued)) && Job(r, false) in s.pool.jobs
    ensures Leads(s, t, 1) && Idle(w.burst) in t.pool.crew && Live(t.table.tasks, r) && Only(s, t, r.key) && Job(r, false) in t.pool.jobs
  {
    t := Leave(s, w, true);
    One(s, ALeave(w, true), t);
  }

  lemma {:induction false} Commits(s: State, r: Ref) returns (t: State)
    requires Job(r, false) in s.pool.jobs && Live(s.table.tasks, r)
    ensures Leads(s, t, 1) && Job(r, true) in t.pool.jobs && r.key in t.book.ledger.captured && r.key !in t.book.ledger.pending
    ensures t.pool.crew == s.pool.crew && t.table.tasks == s.table.tasks && Only(s, t, r.key)
  {
    t := JobCommit(s, Job(r, false));
    One(s, AJobCommit(Job(r, false)), t);
  }

  lemma {:induction false} Finishes(s: State, r: Ref) returns (t: State)
    requires Job(r, true) in s.pool.jobs && Live(s.table.tasks, r)
    ensures Leads(s, t, 1) && r.key !in t.table.tasks && t.book == s.book && t.pool.crew == s.pool.crew && Only(s, t, r.key)
  {
    t := JobDone(s, Job(r, true));
    One(s, AJobDone(Job(r, true)), t);
  }

  /** Archived, and off the table. */
  ghost predicate ArchivedBy(s: State, t: State, k: Key) {
    k in t.book.ledger.captured && k !in t.book.ledger.pending && k !in t.table.tasks && Only(s, t, k)
  }

  lemma {:induction false} TakesAndEnters(s: State, w: Worker, r: Ref, task: Task) returns (t: State, b: Worker)
    requires CanTake(s, w) && s.table.ready[0] == r && Live(s.table.tasks, r) && TaskIs(s, r, task) && task.phase == Queued
    requires task.observed && task.observedGen == s.media && task.requiredGen <= s.media
    ensures Leads(s, t, 2) && Works(t, b, r, Fetch(s.media, task.cycles)) && b.burst == w.burst && Only(s, t, r.key)
  {
    var u, a := Takes(s, w, r, task);
    t, b := Enters(u, a, r, task.(phase := InFlight));
    Then(s, u, t, 1, 1);
  }

  lemma {:induction false} DownloadsAndSubmits(s: State, w: Worker, r: Ref) returns (t: State, b: Worker)
    requires w.Busy? && w.stage.Fetch? && Works(s, w, r, w.stage)
    ensures Leads(s, t, 2) && Works(t, b, r, Submitted) && b.burst == w.burst && Only(s, t, r.key) && Job(r, false) in t.pool.jobs
  {
    var u, a := Downloads(s, w, r);
    t, b := Submits(u, a, r);
    Then(s, u, t, 1, 1);
  }

  lemma {:induction false} MarksAndFrees(s: State, w: Worker, r: Ref) returns (t: State)
    requires Works(s, w, r, Submitted) && Job(r, false) in s.pool.jobs
    ensures Leads(s, t, 2) && Idle(w.burst) in t.pool.crew && Live(t.table.tasks, r) && Only(s, t, r.key) && Job(r, false) in t.pool.jobs
  {
    var u, a := Marks(s, w, r);
    t := Frees(u, a, r);
    Then(s, u, t, 1, 1);
  }

  lemma {:induction false} CommitsAndFinishes(s: State, r: Ref) returns (t: State)
    requires Job(r, false) in s.pool.jobs && Live(s.table.tasks, r)
    ensures Leads(s, t, 2) && ArchivedBy(s, t, r.key) && t.pool.crew == s.pool.crew
  {
    var u := Commits(s, r);
    t := Finishes(u, r);
    Then(s, u, t, 1, 1);
  }

  /** Without faults a download is archived: from every state in which a worker fetches,
      six steps archive the object, take its task off the table, free the worker and leave
      every other task and record alone. */
  lemma {:induction false} Archives(s: State, w: Worker, r: Ref) returns (t: State)
    requires w.Busy? && w.stage.Fetch? && Works(s, w, r, w.stage)
    ensures Leads(s, t, 6) && ArchivedBy(s, t, r.key) && Idle(w.burst) in t.pool.crew
  {
    var a, b := DownloadsAndSubmits(s, w, r);
    var c := MarksAndFrees(a, b, r);
    t := CommitsAndFinishes(c, r);
    Then(s, a, c, 2, 2);
    Then(s, c, t, 4, 2);
  }

  /** So is the first ready task, in eight steps, if an idle worker is there and a playlist
      of the present source has offered its object. */
  lemma {:induction false} ArchivesFirst(s: State, w: Worker, r: Ref, task: Task) returns (t: State)
    requires CanTake(s, w) && s.table.ready[0] == r && Live(s.table.tasks, r) && TaskIs(s, r, task) && task.phase == Queued
    requires task.observed && task.observedGen == s.media && task.requiredGen <= s.media
    ensures Leads(s, t, 8) && ArchivedBy(s, t, r.key) && Idle(w.burst) in t.pool.crew
  {
    var a, b := TakesAndEnters(s, w, r, task);
    t := Archives(a, b, r);
    Then(s, a, t, 2, 6);
  }

  // The download that fails ---------------------------------------------------------------------------

  lemma {:induction false} Breaks(s: State, w: Worker, r: Ref, task: Task) returns (t: State, b: Worker)
    requires w.Busy? && w.stage.Fetch? && Works(s, w, r, w.stage) && TaskIs(s, r, task)
    ensures Leads(s, t, 1) && Works(t, b, r, Leaving(FetchFailed)) && b.burst == w.burst && TaskIs(t, r, task)
    ensures t == s.(pool := t.pool)
  {
    t, b := FetchEnd(s, w, Broken), w.(stage := Leaving(FetchFailed));
    One(s, AFetchEnd(w, Broken), t);
  }

  lemma {:induction false} DelayedTask(s: State, w: Worker, r: Ref, task: Task)
    requires Works(s, w, r, Leaving(FetchFailed)) && TaskIs(s, r, task) && !D.LastAttempt(task, s.clock.ending)
    ensures var t := Leave(s, w, true);
      && TaskIs(t, r, task.(attempt := task.attempt + 1, token := task.token + 1, phase := RetryWait))
      && r.key in t.book.ledger.pending && Only(s, t, r.key)
  {
  }

  lemma {:induction false} DelayedPool(s: State, w: Worker, r: Ref, task: Task)
    requires Works(s, w, r, Leaving(FetchFailed)) && TaskIs(s, r, task) && !D.LastAttempt(task, s.clock.ending)
    ensures var t := Leave(s, w, true);
      Timer(r, task.token + 1) in t.pool.timers && Idle(w.burst) in t.pool.crew && !t.canceled && !t.table.closed
  {
  }

  lemma {:induction false} Delays(s: State, w: Worker, r: Ref, task: Task) returns (t: State)
    requires Works(s, w, r, Leaving(FetchFailed)) && TaskIs(s, r, task) && !D.LastAttempt(task, s.clock.ending)
    ensures Leads(s, t, 1) && TaskIs(t, r, task.(attempt := task.attempt + 1, token := task.token + 1, phase := RetryWait))
    ensures Timer(r, task.token + 1) in t.pool.timers && Idle(w.burst) in t.pool.crew
    ensures r.key in t.book.ledger.pending && Only(s, t, r.key) && !t.canceled && !t.table.closed
  {
    t := Leave(s, w, true);
    DelayedTask(s, w, r, task);
    DelayedPool(s, w, r, task);
    One(s, ALeave(w, true), t);
  }

  lemma {:induction false} Requeues(s: State, r: Ref, task: Task, token: nat) returns (t: State)
    requires Timer(r, token) in s.pool.timers && Live(s.table.tasks, r) && TaskIs(s, r, task) && !s.canceled && !s.table.closed
    requires task.available && task.token == token
    ensures Leads(s, t, 1) && TaskIs(t, r, task.(phase := Queued, awaiting := false)) && r in t.table.ready
    ensures t.book == s.book && Only(s, t, r.key) && forall w | w in s.pool.crew :: w in t.pool.crew
  {
    t := TimerEnd(s, Timer(r, token));
    One(s, ATimerEnd(Timer(r, token)), t);
  }

  /** A failed download is tried again unless it was the last attempt: three steps put the
      task back on the ready list with one attempt more, and the root calls it pending. */
  lemma {:induction false} TriesAgain(s: State, w: Worker, r: Ref, task: Task) returns (t: State)
    requires w.Busy? && w.stage.Fetch? && Works(s, w, r, w.stage) && TaskIs(s, r, task) && !D.LastAttempt(task, s.clock.ending)
    ensures Leads(s, t, 3) && Only(s, t, r.key) && Idle(w.burst) in t.pool.crew && r.key in t.book.ledger.pending && r in t.table.ready
    ensures TaskIs(t, r, task.(attempt := task.attempt + 1, token := task.token + 1, phase := Queued, awaiting := false))
  {
    var a, b := Breaks(s, w, r, task);
    var c := Delays(a, b, r, task);
    t := Requeues(c, r, task.(attempt := task.attempt + 1, token := task.token + 1, phase := RetryWait), task.token + 1);
    Then(s, a, c, 1, 1);
    Then(s, c, t, 2, 1);
  }

  lemma {:induction false} ExpiryMeans(s: State, w: Worker, r: Ref, task: Task)
    requires Works(s, w, r, Leaving(FetchFailed)) && TaskIs(s, r, task) && D.LastAttempt(task, s.clock.ending)
    ensures var t := Leave(s, w, true);
      && Works(t, w.(stage := Stage.Gap(false)), r, Stage.Gap(false)) && Only(s, t, r.key) && t.book.ledger.captured == s.book.ledger.captured
  {
  }

  lemma {:induction false} Expires(s: State, w: Worker, r: Ref, task: Task) returns (t: State, b: Worker)
    requires Works(s, w, r, Leaving(FetchFailed)) && TaskIs(s, r, task) && D.LastAttempt(task, s.clock.ending)
    ensures Leads(s, t, 1) && Works(t, b, r, Stage.Gap(false)) && b.burst == w.burst
    ensures Only(s, t, r.key) && t.book.ledger.captured == s.book.ledger.captured
  {
    t, b := Leave(s, w, true), w.(stage := Stage.Gap(false));
    ExpiryMeans(s, w, r, task);
    One(s, ALeave(w, true), t);
  }

  lemma {:induction false} Records(s: State, w: Worker, r: Ref) returns (t: State, b: Worker)
    requires Works(s, w, r, Stage.Gap(false))
    ensures Leads(s, t, 1) && Works(t, b, r, Stage.Gap(true)) && b.burst == w.burst && Only(s, t, r.key)
    ensures r.key in t.book.ledger.captured + t.book.ledger.gapped && r.key !in t.book.ledger.pending
    ensures t.book.ledger.captured == s.book.ledger.captured
  {
    t, b := GapMark(s, w, true), w.(stage := Stage.Gap(true));
    One(s, AGapMark(w, true), t);
  }

  lemma {:induction false} Removes(s: State, w: Worker, r: Ref) returns (t: State)
    requires Works(s, w, r, Stage.Gap(true))
    ensures Leads(s, t, 1) && Idle(w.burst) in t.pool.crew && r.key !in t.table.tasks && t.book == s.book && Only(s, t, r.key)
  {
    t := GapDone(s, w);
    One(s, AGapDone(w), t);
  }

  /** After the last attempt the object is a gap of the recording, unless it was archived,
      and its task is off the table. */
  lemma {:induction false} BecomesGap(s: State, w: Worker, r: Ref, task: Task) returns (t: State)
    requires w.Busy? && w.stage.Fetch? && Works(s, w, r, w.stage) && TaskIs(s, r, task) && D.LastAttempt(task, s.clock.ending)
    ensures Leads(s, t, 4) && Only(s, t, r.key) && Idle(w.burst) in t.pool.crew && r.key !in t.table.tasks
    ensures r.key in t.book.ledger.captured + t.book.ledger.gapped && r.key !in t.book.ledger.pending
    ensures t.book.ledger.captured == s.book.ledger.captured
  {
    var a, b := Breaks(s, w, r, task);
    var c, d := Expires(a, b, r, task);
    var e, f := Records(c, d, r);
    t := Removes(e, f, r);
    Then(s, a, c, 1, 1);
    Then(c, e, t, 1, 1);
    Then(s, c, t, 2, 2);
  }

  // The task of an old source ---------------------------------------------------------------------------

  /** The task asks for a playlist of at least this generation. */
  predicate AsksFor(before: Task, after: Task, gen: nat) {
    && after.requiredGen >= gen && after.requiredGen >= before.requiredGen && (after.requiredGen == gen || after.requiredGen == before.requiredGen)
    && after.ordinal == before.ordinal && after.observedGen == before.observedGen && after.attempt == before.attempt
    && after.token == before.token && after.preloaded == before.preloaded
  }

  /** acquire refuses a task whose entry is not of the present source. */
  lemma {:induction false} TurnedAway(s: State, w: Worker, r: Ref, task: Task) returns (t: State, b: Worker, after: Task)
    requires Works(s, w, r, Gate) && TaskIs(s, r, task) && !(task.observed && task.observedGen == s.media && task.requiredGen <= s.media)
    ensures Leads(s, t, 1) && Works(t, b, r, Leaving(AwaitsManifest)) && b.burst == w.burst && Only(s, t, r.key) && t.clock == s.clock
    ensures TaskIs(t, r, after) && AsksFor(task, after, s.media) && !after.available && !after.observed && after.cycles == task.cycles
  {
    t, b := Enter(s, w), w.(stage := Leaving(AwaitsManifest));
    after := t.table.tasks[r.key];
    One(s, AEnter(w), t);
  }

  /** A download whose source was refreshed meanwhile. */
  lemma {:induction false} FallsBehind(s: State, w: Worker, r: Ref, task: Task) returns (t: State, b: Worker, after: Task)
    requires w.Busy? && w.stage.Fetch? && Works(s, w, r, w.stage) && TaskIs(s, r, task) && s.media != w.stage.gen
    ensures Leads(s, t, 1) && Works(t, b, r, Leaving(AwaitsManifest)) && b.burst == w.burst && Only(s, t, r.key) && t.clock == s.clock
    ensures TaskIs(t, r, after) && AsksFor(task, after, s.media) && after.cycles == task.cycles
    ensures if task.available && task.observed && task.observedGen >= s.media then after.available && after.observed
            else !after.available && !after.observed
  {
    t, b := FetchEnd(s, w, Stale), w.(stage := Leaving(AwaitsManifest));
    after := t.table.tasks[r.key];
    One(s, AFetchEnd(w, Stale), t);
  }

  lemma {:induction false} Denied(s: State, w: Worker, r: Ref, task: Task) returns (t: State, b: Worker)
    requires w.Busy? && w.stage.Fetch? && Works(s, w, r, w.stage) && TaskIs(s, r, task) && w.stage.cycles < 3
    ensures Leads(s, t, 1) && Works(t, b, r, Refresh(w.stage.gen)) && b.burst == w.burst && Only(s, t, r.key) && t.clock == s.clock
    ensures TaskIs(t, r, task.(phase := Refreshing, awaiting := false))
  {
    t, b := FetchEnd(s, w, Refused), w.(stage := Refresh(w.stage.gen));
    One(s, AFetchEnd(w, Refused), t);
  }

  lemma {:induction false} Renews(s: State, w: Worker, r: Ref, task: Task, gen: nat) returns (t: State, b: Worker, after: Task)
    requires w.Busy? && w.stage.Refresh? && Works(s, w, r, w.stage) && TaskIs(s, r, task) && w.stage.gen < gen <= s.media
    ensures Leads(s, t, 1) && Works(t, b, r, Leaving(AwaitsManifest)) && b.burst == w.burst && Only(s, t, r.key) && t.clock == s.clock
    ensures TaskIs(t, r, after) && AsksFor(task, after, gen) && after.cycles == task.cycles + 1
    ensures after.available == task.available && after.observed == task.observed
  {
    t, b := RefreshEnd(s, w, gen), w.(stage := Leaving(AwaitsManifest));
    after := t.table.tasks[r.key];
    One(s, ARefreshEnd(w, gen), t);
  }

  /** A download that the origin refuses has its source refreshed, up to three times: the
      task then asks for a playlist of the new source. */
  lemma {:induction false} RefreshesSource(s: State, w: Worker, r: Ref, task: Task, gen: nat) returns (t: State, b: Worker, after: Task)
    requires w.Busy? && w.stage.Fetch? && Works(s, w, r, w.stage) && TaskIs(s, r, task) && w.stage.cycles < 3 && w.stage.gen < gen <= s.media
    ensures Leads(s, t, 2) && Works(t, b, r, Leaving(AwaitsManifest)) && b.burst == w.burst && Only(s, t, r.key) && t.clock == s.clock
    ensures TaskIs(t, r, after) && AsksFor(task, after, gen) && after.cycles == task.cycles + 1
    ensures after.available == task.available && after.observed == task.observed
  {
    var u, a := Denied(s, w, r, task);
    t, b, after := Renews(u, a, r, task.(phase := Refreshing, awaiting := false), gen);
    Then(s, u, t, 1, 1);
  }

  /** The fourth refusal ends the run. */
  lemma {:induction false} RefusedForGood(s: State, w: Worker, r: Ref) returns (t: State)
    requires w.Busy? && w.stage.Fetch? && Works(s, w, r, w.stage) && w.stage.cycles >= 3
    ensures Leads(s, t, 2) && t.fatal && t.canceled && t.table.closed && t.table.tasks == s.table.tasks && t.book == s.book
  {
    var u, b := FetchEnd(s, w, Refused), w.(stage := Leaving(RefreshExhausted));
    t := Leave(u, b, true);
    One(s, AFetchEnd(w, Refused), u);
    One(u, ALeave(b, true), t);
    Then(s, u, t, 1, 1);
  }

  lemma {:induction false} StartsWaiting(s: State, w: Worker, r: Ref, task: Task) returns (t: State, b: Worker)
    requires Works(s, w, r, Leaving(AwaitsManifest)) && TaskIs(s, r, task)
    ensures Leads(s, t, 1) && Works(t, b, r, Awaiting) && b.burst == w.burst && Only(s, t, r.key) && TaskIs(t, r, task) && t.clock == s.clock
  {
    t, b := Leave(s, w, true), w.(stage := Awaiting);
    One(s, ALeave(w, true), t);
  }

  /** The playlist that the task asks for has offered its object. */
  predicate Served(task: Task) { task.available && task.observed && task.observedGen >= task.requiredGen }

  lemma {:induction false} AwaitedTable(t: Table, r: Ref, task: Task)
    requires Live(t.tasks, r) && t.tasks[r.key] == task
    ensures var u, next := AwaitNext(t, r.key, false), (if Served(task) then task.(phase := Queued, awaiting := false)
                                                        else task.(phase := AwaitManifest, awaiting := true));
      u.tasks == t.tasks[r.key := next] && (Served(task) ==> u.ready == t.ready + [r])
  {
  }

  lemma {:induction false} AwaitMeans(s: State, w: Worker, r: Ref, task: Task)
    requires Works(s, w, r, Awaiting) && TaskIs(s, r, task) && !s.clock.ending
    ensures var t, u := Await(s, w), AwaitNext(s.table, r.key, false);
      Idle(w.burst) in t.pool.crew && t.book == s.book && t.poll == s.poll && t.media == s.media && t.table == u
  {
    AwaitedTable(s.table, r, task);
  }

  lemma {:induction false} Waits(s: State, w: Worker, r: Ref, task: Task) returns (t: State)
    requires Works(s, w, r, Awaiting) && TaskIs(s, r, task) && !s.clock.ending
    ensures Leads(s, t, 1) && Idle(w.burst) in t.pool.crew && Only(s, t, r.key)
    ensures if Served(task) then r in t.table.ready && TaskIs(t, r, task.(phase := Queued, awaiting := false))
            else TaskIs(t, r, task.(phase := AwaitManifest, awaiting := true))
  {
    t := Await(s, w);
    AwaitMeans(s, w, r, task);
    AwaitedTable(s.table, r, task);
    One(s, AAwait(w), t);
  }

  /** A task that asks for a playlist is ready again if that playlist has offered its
      object, and waits for it otherwise. */
  lemma {:induction false} AwaitsPlaylist(s: State, w: Worker, r: Ref, task: Task) returns (t: State)
    requires Works(s, w, r, Leaving(AwaitsManifest)) && TaskIs(s, r, task) && !s.clock.ending
    ensures Leads(s, t, 2) && Idle(w.burst) in t.pool.crew && Only(s, t, r.key)
    ensures if Served(task) then r in t.table.ready && TaskIs(t, r, task.(phase := Queued, awaiting := false))
            else TaskIs(t, r, task.(phase := AwaitManifest, awaiting := true))
  {
    var u, a := StartsWaiting(s, w, r, task);
    t := Waits(u, a, r, task);
    Then(s, u, t, 1, 1);
  }

  // Discovery -------------------------------------------------------------------------------------------

  /** Discovery looks at an entry that it has to hand to the table. */
  ghost predicate Hands(s: State, k: Key) {
    && CanDiscover(s) && KeyInHand(s) == k && !s.poll.playlist[s.poll.index].gap && !s.table.closed
    && s.media == s.poll.gen && (s.clock.known ==> s.clock.latest <= s.poll.gen)
    && k !in s.book.ledger.captured && k !in s.book.ledger.gapped
  }

  /** The task that waits for this playlist is ready again; one that asks for a later
      playlist only notes that this one has offered its object. */
  lemma {:induction false} ServesWaiting(s: State, r: Ref, task: Task) returns (t: State)
    requires Hands(s, r.key) && Live(s.table.tasks, r) && TaskIs(s, r, task) && task.awaiting && task.phase == AwaitManifest
    ensures Leads(s, t, 1) && t.poll == s.poll.(index := s.poll.index + 1)
    ensures var seen := task.(available := true, observed := true, observedGen := s.media);
      if task.requiredGen <= s.media then r in t.table.ready && TaskIs(t, r, seen.(phase := Queued, awaiting := false))
      else TaskIs(t, r, seen)
  {
    t := DiscoverNext(s);
    One(s, ADiscoverNext, t);
  }

  /** An object without a task gets one if the table holds fewer than 128 tasks; the poller
      waits for room otherwise. */
  lemma {:induction false} AdmitsIff(s: State, k: Key) returns (t: State)
    requires Hands(s, k) && k !in s.table.tasks && 0 < s.table.next < MAX_UINT64
    ensures Leads(s, t, 1) && t.book == s.book
    ensures if |s.table.tasks| < 128
            then t.poll == s.poll.(index := s.poll.index + 1) && TaskIs(t, Ref(k, s.table.next), NewTask(s.table.next, s.media))
                 && Ref(k, s.table.next) in t.table.ready && t.table.next == s.table.next + 1
            else t.poll.Waiting? && t.poll.at == s.poll.index && t.table == s.table
  {
    t := DiscoverNext(s);
    One(s, ADiscoverNext, t);
  }

  // The end of the stream -----------------------------------------------------------------------------------

  /** Nothing is left to do: no task, no gap commit, no metadata to write. */
  ghost predicate Quiet(s: State) {
    && s.table.tasks == map[] && s.pool.gappers == multiset{} && s.snapshots == 0 && s.metadata == 0
    && !s.fatal && s.book.root == Recording
  }

  ghost predicate Fresh(s: State, gen: nat) { s.media == gen && (s.clock.known ==> s.clock.latest <= gen) }

  /** The recording is complete, and every object that was pending is a gap. */
  ghost predicate Completes(before: Book, after: Book) {
    && after.root == Completed && after.ledger.pending == iset{} && after.ledger.captured == before.ledger.captured
    && forall k :: k in after.ledger.gapped <==> k in before.ledger.gapped || (k in before.ledger.pending && k !in before.ledger.captured)
  }

  lemma {:induction false} EndsList(s: State) returns (t: State)
    requires s.poll.Ending? && Quiet(s) && Fresh(s, s.poll.gen)
    ensures Leads(s, t, 1) && Quiet(t) && t.poll == Draining(s.poll.gen) && Fresh(t, s.poll.gen) && t.clock.ending && t.clock.endingGen == s.poll.gen
    ensures t.book == s.book && t.clock.known
  {
    t := EndList(s, []);
    assert EndTasks(s.table.tasks) == map[];
    assert Expired(s.table.tasks, map[]) == {};
    assert GappersOf({}) == multiset{};
    One(s, AEndList([]), t);
  }

  lemma {:induction false} Drains(s: State) returns (t: State)
    requires s.poll.Draining? && Quiet(s) && Fresh(s, s.poll.gen) && s.clock.ending && s.clock.endingGen == s.poll.gen
    ensures Leads(s, t, 1) && t.poll == Publishing(s.poll.gen) && t.media == s.media && t.book == s.book
  {
    t := Drain(s);
    One(s, ADrain, t);
  }

  lemma {:induction false} Publishes(s: State) returns (t: State)
    requires s.poll.Publishing? && s.media == s.poll.gen
    ensures Leads(s, t, 1) && t.poll == Rest && Completes(s.book, t.book)
  {
    t := Publish(s, true);
    One(s, APublish(true), t);
  }

  lemma {:induction false} EndingCompletes(s: State) returns (t: State)
    requires s.poll.Ending? && Quiet(s) && Fresh(s, s.poll.gen)
    ensures Leads(s, t, 3) && t.poll == Rest && Completes(s.book, t.book)
  {
    var a := EndsList(s);
    var b := Drains(a);
    t := Publishes(b);
    Then(s, a, b, 1, 1);
    Then(s, b, t, 2, 1);
  }

  /** The last playlist has been discovered and its tasks are done: four steps complete the
      recording. */
  lemma {:induction false} DiscoveredEndCompletes(s: State) returns (t: State)
    requires CanFinishDiscovery(s) && s.poll.endList && Quiet(s) && Fresh(s, s.poll.gen)
    ensures Leads(s, t, 4) && t.poll == Rest && Completes(s.book, t.book)
  {
    var a := FinishDiscovery(s);
    One(s, AFinishDiscovery, a);
    t := EndingCompletes(a);
    Then(s, a, t, 1, 3);
  }

  /** So does an ENDLIST playlist without entries. */
  lemma {:induction false} EmptyEndCompletes(s: State, gen: nat) returns (t: State)
    requires s.poll == Rest && Quiet(s) && Fresh(s, gen)
    ensures Leads(s, t, 4) && t.poll == Rest && Completes(s.book, t.book)
  {
    var a := Begin(s, [], true, gen);
    One(s, ABegin([], true, gen), a);
    t := EndingCompletes(a);
    Then(s, a, t, 1, 3);
  }
}
