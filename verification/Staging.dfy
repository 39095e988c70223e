/** Staged handover payloads. A target Engine downloads the first init and media
    object before it owns the recording; every step that takes such a payload must
    release it or hand it to the ingest service, once. The candidate ends up in a
    preloaded task of the target's first scheduler. */
module Staging {
  import opened Archive
  import opened Payloads
  import opened Preparation
  import TT = TaskTable

  /** Where the task that holds the staged payloads is: in the table, taken by a worker
      that has not entered acquire, turned away by acquire, or left behind by a gap commit
      that could not be saved. A task that has given its payloads up is of no interest here. */
  datatype Place =
    | NoTask
    | InTable(task: TT.Task, staged: Candidate)
    | AtGate(task: TT.Task, staged: Candidate)
    | TurnedAway(task: TT.Task, staged: Candidate)
    | GapUnsaved(task: TT.Task, staged: Candidate)

  /** Every place that can own staged payloads, the source and the playlist clock that
      decide what happens to the task, and what became of all payloads. */
  datatype State = State(
    probe: Option<Candidate>, prepared: Option<Candidate>, active: bool, adopted: Option<Candidate>, place: Place,
    media: nat, clock: TT.Clock, account: Account, leaked: multiset<nat>)

  datatype Action =
    /** The probe succeeds, with the account and the candidate it leaves. */
    | Probed(account: Account, candidate: Candidate)
    /** The candidate is refused, or stored in the place of an inactive one. */
    | RefuseStore | StorePrepared
    /** discardPreparedHandoverLocked, DiscardPreparedHandover, Manager.Close. */
    | Discard
    | BeginActivation | ActivationFails | ActivationSucceeds
    /** newSegmentScheduler adopts the candidate, or the worker ends without it. */
    | Adopt(ordinal: Uint64) | WorkerEnds
    /** A worker takes the task, and enters acquire with the account it leaves. */
    | Take | Enter(account: Account)
    /** awaitManifest, for a task that was turned away; whether a gap could be saved. */
    | Await(saved: bool)
    /** A playlist of the current source offers the task's entry, or only sweeps the table. */
    | Offer | Swept
    /** endList for the current source; whether the gaps it begins could be saved. */
    | EndStream(saved: bool)
    | Refresh | Note(gen: nat)
    /** Another task, or a probe that fails, downloads and consumes payloads of its own. */
    | Others(account: Account)
    /** segmentScheduler.close */
    | Close

  function Multi(p: Option<nat>): multiset<nat> { if p == None then multiset{} else multiset{p.value} }

  function Ids(c: Option<Candidate>): multiset<nat> {
    if c == None then multiset{} else Multi(c.value.init) + Multi(c.value.media)
  }

  function Release(a: Account, c: Option<Candidate>): Account { a.(released := a.released + Ids(c)) }

  // The task -------------------------------------------------------------------------------------

  function Preloaded(ordinal: Uint64): TT.Task { TT.NewTask(ordinal, 0).(preloaded := true) }

  /** What one playlist entry of the task does to it. */
  function Seen(task: TT.Task, gen: nat): TT.Task {
    var seen := task.(available := true, observed := true, observedGen := gen);
    if task.awaiting && gen >= task.requiredGen then seen.(phase := TT.Queued, awaiting := false) else seen
  }

  /** awaitManifest on one task. */
  function Awaiting(task: TT.Task, ending: bool): TT.Task {
    if TT.Refreshed(task) then task.(phase := TT.Queued, awaiting := false)
    else if !ending then task.(phase := TT.AwaitManifest, awaiting := true)
    else task.(phase := TT.GapCommitting)
  }

  /** They are what the table functions do to that task. */
  lemma OneTaskOfTheTable(t: TT.Table, k: Key, gen: nat, ending: bool)
    requires k in t.tasks
    ensures TT.AwaitNext(t, k, ending).tasks[k] == Awaiting(t.tasks[k], ending)
    ensures t.tasks[k].phase != TT.GapCommitting ==>
      TT.Discover(t, k, gen).Admitted? && TT.Discover(t, k, gen).table.tasks[k] == Seen(t.tasks[k], gen)
  {
  }

  /** A sweep of the table treats a preloaded task as the step Swept does. */
  lemma {:induction false} SweptAsInTheTable(s: State, k: Key, epoch: Uint64, playlist: seq<MediaSegment>)
    requires s.place != NoTask && s.place.task.preloaded && k.epoch <= epoch && playlist != []
    ensures Step(s, Swept) == s.(place := s.place.(task := TT.SweepTask(k, s.place.task, epoch, playlist)))
  {
  }

  /** The clock that awaitManifest decides by. */
  function AwaitClock(s: State): TT.Clock {
    if s.media > s.clock.latest then TT.Note(s.clock, s.media) else s.clock
  }

  predicate CurrentSource(s: State) { TT.Current(s.clock, s.media, s.media) }

  /** The task with its payloads goes back to the table, or becomes a gap. persistGap
      saves the gap and then deletes the task, and nobody releases what it held; if the
      gap cannot be saved the task stays for close, which the failure brings about. */
  function Settle(s: State, task: TT.Task, saved: bool): State
    requires s.place != NoTask
  {
    if task.phase != TT.GapCommitting then s.(place := InTable(task, s.place.staged))
    else if saved then s.(place := NoTask, leaked := s.leaked + Ids(Some(s.place.staged)))
    else s.(place := GapUnsaved(task, s.place.staged))
  }

  function EndOfStream(s: State, saved: bool): State {
    var c := TT.Checked(s.clock, s.media, s.media).(ending := true, endingGen := s.media);
    if s.place.InTable? then Settle(s.(clock := c), TT.EndTask(s.place.task), saved) else s.(clock := c)
  }

  predicate TurnsAway(s: State) { s.place.AtGate? && TT.Outdated(s.place.task, s.media) }

  /** Entering acquire. A task that is not turned away gives its payloads up, as the
      method Acquire does. */
  function Entered(s: State, account: Account): State
    requires s.place.AtGate?
  {
    if TurnsAway(s)
    then s.(place := TurnedAway(TT.Demand(s.place.task, s.media).(available := false, observed := false), s.place.staged))
    else s.(place := NoTask, account := account)
  }

  // Steps ----------------------------------------------------------------------------------------

  ghost predicate Enabled(s: State, a: Action) {
    match a
    case Probed(account, candidate) => s.probe == None && candidate.media.Some? && Leaves(s.account, account, candidate)
    case RefuseStore => s.probe.Some?
    case StorePrepared => s.probe.Some? && !s.active
    case Discard => s.prepared.Some? && !s.active
    case BeginActivation => s.prepared.Some? && !s.active
    case ActivationFails => s.prepared.Some? && s.active
    case ActivationSucceeds => s.prepared.Some? && s.active && s.adopted == None
    case Adopt(_) => s.adopted.Some? && s.adopted.value.media.Some? && s.place == NoTask
    case WorkerEnds => s.adopted.Some?
    case Take => s.place.InTable? && s.place.task.phase == TT.Queued
    case Enter(account) => s.place.AtGate? && (TurnsAway(s) || Settles(s.account, account, s.place.staged))
    case Await(_) => s.place.TurnedAway?
    case Offer => s.place != NoTask && !s.place.GapUnsaved? && CurrentSource(s)
    case Swept => s.place != NoTask
    case EndStream(_) => CurrentSource(s)
    case Refresh => true
    case Note(gen) => gen <= s.media
    case Others(account) => Settles(s.account, account, NOTHING)
    case Close => s.place.InTable? || s.place.TurnedAway? || s.place.GapUnsaved?
  }

  ghost function Step(s: State, a: Action): State
    requires Enabled(s, a)
  {
    match a
    case Probed(account, candidate) => s.(probe := Some(candidate), account := account)
    case RefuseStore => s.(probe := None, account := Release(s.account, s.probe))
    case StorePrepared => s.(prepared := s.probe, probe := None, account := Release(s.account, s.prepared))
    case Discard => s.(prepared := None, account := Release(s.account, s.prepared))
    case BeginActivation => s.(active := true)
    case ActivationFails => s.(prepared := None, active := false, account := Release(s.account, s.prepared))
    case ActivationSucceeds => s.(prepared := None, active := false, adopted := s.prepared)
    case Adopt(ordinal) =>
      s.(adopted := None, place := InTable(Preloaded(ordinal), s.adopted.value), clock := TT.Clock(false, 0, false, 0))
    case WorkerEnds => s.(adopted := None, account := Release(s.account, s.adopted))
    case Take => s.(place := AtGate(s.place.task.(phase := TT.InFlight), s.place.staged))
    case Enter(account) => Entered(s, account)
    case Await(saved) => Settle(s.(clock := AwaitClock(s)), Awaiting(s.place.task, AwaitClock(s).ending), saved)
    case Offer => s.(place := s.place.(task := Seen(s.place.task, s.media)), clock := TT.Checked(s.clock, s.media, s.media))
    case Swept => s.(place := s.place.(task := s.place.task.(available := true)))
    case EndStream(saved) => EndOfStream(s, saved)
    case Refresh => s.(media := s.media + 1)
    case Note(gen) => s.(clock := TT.Note(s.clock, gen))
    case Others(account) => s.(account := account)
    case Close => s.(place := NoTask, account := Release(s.account, Some(s.place.staged)))
  }

  function Fresh(media: nat): State {
    State(None, None, false, None, NoTask, media, TT.Clock(false, 0, false, 0), Account(0, multiset{}, multiset{}), multiset{})
  }

  // Linearity ------------------------------------------------------------------------------------

  function HoldsPlace(place: Place, p: nat): nat { if place == NoTask then 0 else Holds(place.staged, p) }

  /** How often anybody owns `p`. */
  function Owners(s: State, p: nat): nat {
    HoldsAny(s.probe, p) + HoldsAny(s.prepared, p) + HoldsAny(s.adopted, p) + HoldsPlace(s.place, p)
  }

  /** Every payload ever downloaded has exactly one owner, or was released or handed over
      exactly once, or leaked. */
  ghost predicate Conserved(s: State) {
    forall p: nat :: Owners(s, p) + s.account.Fate(p) + s.leaked[p] == if p < s.account.issued then 1 else 0
  }

  lemma ReleaseCounts(a: Account, c: Option<Candidate>, p: nat)
    ensures Release(a, c).Fate(p) == a.Fate(p) + HoldsAny(c, p) && Release(a, c).issued == a.issued
    ensures Ids(c)[p] == HoldsAny(c, p)
  {
  }

  /** The count of one payload, on the way through a step. */
  ghost predicate Carries(s: State, t: State, p: nat) {
    && s.account.issued <= t.account.issued
    && Owners(t, p) + t.account.Fate(p) + t.leaked[p]
       == Owners(s, p) + s.account.Fate(p) + s.leaked[p] + New(s.account.issued, t.account.issued, p)
  }

  predicate Prepares(a: Action) {
    || a.Probed? || a == RefuseStore || a == StorePrepared || a == Discard || a == BeginActivation
    || a == ActivationFails || a == ActivationSucceeds || a.Adopt? || a == WorkerEnds
  }

  lemma ProbeCarries(s: State, a: Action, p: nat)
    requires Enabled(s, a) && (a.Probed? || a == RefuseStore || a == StorePrepared)
    ensures Carries(s, Step(s, a), p)
  {
    ReleaseCounts(s.account, s.probe, p);
    ReleaseCounts(s.account, s.prepared, p);
  }

  lemma DiscardCarries(s: State, a: Action, p: nat)
    requires Enabled(s, a) && (a == Discard || a == ActivationFails || a == WorkerEnds)
    ensures Carries(s, Step(s, a), p)
  {
    if a == WorkerEnds { ReleaseCounts(s.account, s.adopted, p); } else { ReleaseCounts(s.account, s.prepared, p); }
  }

  lemma PreparingCarries(s: State, a: Action, p: nat)
    requires Enabled(s, a) && Prepares(a)
    ensures Carries(s, Step(s, a), p)
  {
    if a.Probed? || a == RefuseStore || a == StorePrepared { ProbeCarries(s, a, p); }
    else if a == Discard || a == ActivationFails || a == WorkerEnds { DiscardCarries(s, a, p); }
  }

  lemma SettleCarries(s: State, task: TT.Task, saved: bool, p: nat)
    requires s.place != NoTask
    ensures Carries(s, Settle(s, task, saved), p)
  {
    ReleaseCounts(s.account, Some(s.place.staged), p);
  }

  lemma TaskCarries(s: State, a: Action, p: nat)
    requires Enabled(s, a) && !Prepares(a)
    ensures Carries(s, Step(s, a), p)
  {
    if a.Await? {
      SettleCarries(s.(clock := AwaitClock(s)), Awaiting(s.place.task, AwaitClock(s).ending), a.saved, p);
    } else if a.EndStream? {
      var c := s.(clock := TT.Checked(s.clock, s.media, s.media).(ending := true, endingGen := s.media));
      if s.place.InTable? { SettleCarries(c, TT.EndTask(s.place.task), a.saved, p); }
    } else if a == Close {
      ReleaseCounts(s.account, Some(s.place.staged), p);
    }
  }

  lemma StepConserves(s: State, a: Action)
    requires Conserved(s) && Enabled(s, a)
    ensures Conserved(Step(s, a))
  {
    var t := Step(s, a);
    forall p: nat ensures Owners(t, p) + t.account.Fate(p) + t.leaked[p] == if p < t.account.issued then 1 else 0 {
      if Prepares(a) { PreparingCarries(s, a, p); } else { TaskCarries(s, a, p); }
      assert Owners(s, p) + s.account.Fate(p) + s.leaked[p] == if p < s.account.issued then 1 else 0;
    }
  }

  /** The state after a run from a fresh target, if every step was possible. */
  ghost function After(media: nat, actions: seq<Action>): Option<State> {
    if actions == [] then Some(Fresh(media))
    else
      var before := After(media, actions[..|actions| - 1]);
      var a := actions[|actions| - 1];
      if before.Some? && Enabled(before.value, a) then Some(Step(before.value, a)) else None
  }

  lemma {:induction false} RunConserves(media: nat, actions: seq<Action>)
    requires After(media, actions).Some?
    ensures Conserved(After(media, actions).value)
  {
    if actions != [] {
      RunConserves(media, actions[..|actions| - 1]);
      StepConserves(After(media, actions[..|actions| - 1]).value, actions[|actions| - 1]);
    }
  }

  /** Nothing is staged any more. */
  predicate Quiescent(s: State) {
    s.probe == None && s.prepared == None && s.adopted == None && s.place == NoTask
  }

  /** Staged payloads are linear, in any run: at the end each payload was released or
      handed over, exactly once, or it leaked; and none was ever consumed twice, or
      consumed while somebody still owns it. */
  lemma PayloadsAreLinear(media: nat, actions: seq<Action>, p: nat)
    requires After(media, actions).Some? && p < After(media, actions).value.account.issued
    ensures var s := After(media, actions).value;
      && s.account.Fate(p) <= 1 && (s.account.Fate(p) == 1 ==> Owners(s, p) == 0)
      && (Quiescent(s) ==> s.account.Fate(p) + s.leaked[p] == 1)
  {
    RunConserves(media, actions);
    var s := After(media, actions).value;
    assert Owners(s, p) + s.account.Fate(p) + s.leaked[p] == 1;
  }

  // When payloads leak --------------------------------------------------------------------------

  /** The source was refreshed since a playlist last offered the task's entry, and since
      a worker found that out no playlist has offered the entry again. */
  datatype Past = Past(stale: bool, unoffered: bool)

  /** What one more step adds to the past of the adopted task. */
  ghost function Later(past: Past, s: State, a: Action): Past {
    match a
    case Adopt(_) => Past(s.media != 0, false)
    case Refresh => past.(stale := true)
    case Offer => Past(false, false)
    case Enter(_) => if s.place.AtGate? && past.stale then past.(unoffered := true) else past
    case _ => past
  }

  /** The past of a run: read off the refreshes, the offers and the worker's attempts. */
  ghost function PastOf(media: nat, actions: seq<Action>): Past
    requires After(media, actions).Some?
  {
    if actions == [] then Past(false, false)
    else
      var init := actions[..|actions| - 1];
      Later(PastOf(media, init), After(media, init).value, actions[|actions| - 1])
  }

  /** What the past says about the task. */
  predicate TaskOk(s: State, past: Past) {
    s.place != NoTask ==>
      var task := s.place.task;
      && task.requiredGen <= s.media && task.observedGen <= s.media
      && (past.stale <==> task.observedGen != s.media || !task.observed)
      && (past.unoffered <==> !task.observed) && (task.observed ==> TT.Refreshed(task))
      && (task.awaiting <==> task.phase == TT.AwaitManifest)
      && (match s.place
          case InTable(_, _) => if past.unoffered then task.phase == TT.AwaitManifest else task.phase == TT.Queued
          case AtGate(_, _) => task.phase == TT.InFlight && !past.unoffered
          case TurnedAway(_, _) => task.phase == TT.InFlight
          case GapUnsaved(_, _) => task.phase == TT.GapCommitting && past.unoffered)
  }

  lemma OfferKeeps(s: State, past: Past)
    requires TaskOk(s, past) && Enabled(s, Offer)
    ensures TaskOk(Step(s, Offer), Past(false, false))
  {
  }

  lemma EnterKeeps(s: State, past: Past, account: Account)
    requires TaskOk(s, past) && Enabled(s, Enter(account))
    ensures TaskOk(Step(s, Enter(account)), Later(past, s, Enter(account)))
  {
  }

  /** The task has become a gap. */
  predicate Gone(place: Place) { place == NoTask || place.GapUnsaved? }

  lemma AwaitKeeps(s: State, past: Past, saved: bool)
    requires TaskOk(s, past) && Enabled(s, Await(saved))
    ensures TaskOk(Step(s, Await(saved)), past)
    ensures Gone(Step(s, Await(saved)).place) <==> past.unoffered && AwaitClock(s).ending
  {
  }

  lemma EndKeeps(s: State, past: Past, saved: bool)
    requires TaskOk(s, past) && Enabled(s, EndStream(saved)) && s.place != NoTask
    ensures TaskOk(Step(s, EndStream(saved)), past)
    ensures s.place.InTable? ==> (Gone(Step(s, EndStream(saved)).place) <==> past.unoffered)
  {
  }

  lemma StepKeepsPast(s: State, past: Past, a: Action)
    requires TaskOk(s, past) && Enabled(s, a)
    ensures TaskOk(Step(s, a), Later(past, s, a))
  {
    if a == Offer { OfferKeeps(s, past); }
    else if a.Enter? { EnterKeeps(s, past, a.account); }
    else if a.Await? { AwaitKeeps(s, past, a.saved); }
    else if a.EndStream? { if s.place != NoTask { EndKeeps(s, past, a.saved); } }
  }

  lemma {:induction false} RunKeepsPast(media: nat, actions: seq<Action>)
    requires After(media, actions).Some?
    ensures TaskOk(After(media, actions).value, PastOf(media, actions))
  {
    if actions != [] {
      var init := actions[..|actions| - 1];
      RunKeepsPast(media, init);
      StepKeepsPast(After(media, init).value, PastOf(media, init), actions[|actions| - 1]);
    }
  }

  /** The stream has ended while the task is out of a worker's hands: ENDLIST arrives
      while it waits in the table, or it is put back to wait after ENDLIST. */
  predicate EndsFor(s: State, a: Action) {
    (a.EndStream? && s.place.InTable?) || (a.Await? && s.place.TurnedAway? && AwaitClock(s).ending)
  }

  /** The gaps that the step begins are saved. */
  predicate SavesGaps(a: Action) { (a.EndStream? || a.Await?) && a.saved }

  lemma OnlySettlingLeaks(s: State, a: Action)
    requires Enabled(s, a) && !a.Await? && !a.EndStream?
    ensures Step(s, a).leaked == s.leaked
  {
  }

  lemma SettleLeaks(s: State, task: TT.Task, saved: bool)
    requires s.place != NoTask && s.place.staged.media.Some?
    ensures Settle(s, task, saved).leaked != s.leaked <==> saved && Gone(Settle(s, task, saved).place)
  {
    assert Ids(Some(s.place.staged))[s.place.staged.media.value] >= 1;
  }

  /** An adopted candidate has its media object. */
  predicate MediaStaged(s: State) {
    && (s.probe.Some? ==> s.probe.value.media.Some?) && (s.prepared.Some? ==> s.prepared.value.media.Some?)
    && (s.adopted.Some? ==> s.adopted.value.media.Some?)
    && (s.place != NoTask ==> s.place.staged.media.Some?)
  }

  /** Only the target's places change. */
  lemma PreparingStagesMedia(s: State, a: Action)
    requires MediaStaged(s) && Enabled(s, a) && Prepares(a)
    ensures MediaStaged(Step(s, a))
  {
  }

  /** The task goes nowhere with other payloads. */
  lemma TaskStagesMedia(s: State, a: Action)
    requires Enabled(s, a) && !Prepares(a)
    ensures var t := Step(s, a);
      && t.probe == s.probe && t.prepared == s.prepared && t.adopted == s.adopted
      && (t.place != NoTask ==> s.place != NoTask && t.place.staged == s.place.staged)
  {
  }

  lemma StepStagesMedia(s: State, a: Action)
    requires MediaStaged(s) && Enabled(s, a)
    ensures MediaStaged(Step(s, a))
  {
    if Prepares(a) { PreparingStagesMedia(s, a); } else { TaskStagesMedia(s, a); }
  }

  lemma {:induction false} RunStagesMedia(media: nat, actions: seq<Action>)
    requires After(media, actions).Some?
    ensures MediaStaged(After(media, actions).value)
  {
    if actions != [] {
      RunStagesMedia(media, actions[..|actions| - 1]);
      StepStagesMedia(After(media, actions[..|actions| - 1]).value, actions[|actions| - 1]);
    }
  }

  lemma LeaksAt(s: State, past: Past, a: Action)
    requires TaskOk(s, past) && MediaStaged(s) && Enabled(s, a)
    ensures Step(s, a).leaked != s.leaked <==> past.unoffered && EndsFor(s, a) && SavesGaps(a)
  {
    if a.Await? {
      AwaitKeeps(s, past, a.saved);
      SettleLeaks(s.(clock := AwaitClock(s)), Awaiting(s.place.task, AwaitClock(s).ending), a.saved);
    } else if a.EndStream? {
      if s.place.InTable? {
        EndKeeps(s, past, a.saved);
        SettleLeaks(s.(clock := TT.Checked(s.clock, s.media, s.media).(ending := true, endingGen := s.media)),
          TT.EndTask(s.place.task), a.saved);
      }
    } else {
      OnlySettlingLeaks(s, a);
    }
  }

  /** When staged payloads leak. A step of any run leaks them if and only if the stream
      ends for the preloaded task and the gap is saved, after a worker was refused the
      payloads because the source had been refreshed since the entry was last offered,
      and before a playlist of the refreshed source offered the entry again. */
  lemma LeaksIff(media: nat, actions: seq<Action>, a: Action)
    requires After(media, actions).Some? && Enabled(After(media, actions).value, a)
    ensures var s := After(media, actions).value;
      Step(s, a).leaked != s.leaked <==> PastOf(media, actions).unoffered && EndsFor(s, a) && SavesGaps(a)
  {
    RunKeepsPast(media, actions);
    RunStagesMedia(media, actions);
    LeaksAt(After(media, actions).value, PastOf(media, actions), a);
  }

  /** A gap that could not be saved leaks nothing: closing the scheduler, the only thing
      left to do, releases both payloads. */
  lemma UnsavedGapIsReleased(s: State, past: Past, a: Action)
    requires TaskOk(s, past) && Enabled(s, a) && past.unoffered && EndsFor(s, a) && !SavesGaps(a)
    ensures var t := Step(s, a);
      && t.place.GapUnsaved? && t.place.staged == s.place.staged && t.account == s.account && t.leaked == s.leaked
      && Enabled(t, Close) && Step(t, Close).place == NoTask && Step(t, Close).leaked == s.leaked
      && forall p: nat :: Step(t, Close).account.Fate(p) == s.account.Fate(p) + Holds(s.place.staged, p)
  {
    var t := Step(s, a);
    if a.Await? { AwaitKeeps(s, past, a.saved); } else { EndKeeps(s, past, a.saved); }
    forall p: nat ensures Step(t, Close).account.Fate(p) == s.account.Fate(p) + Holds(s.place.staged, p) {
      ReleaseCounts(t.account, Some(t.place.staged), p);
    }
  }

  /** acquire refuses the payloads exactly when the source was refreshed since a playlist
      last offered the entry, or since the adoption, which assumes generation 0. */
  lemma TurnsAwayIff(media: nat, actions: seq<Action>)
    requires After(media, actions).Some? && After(media, actions).value.place.AtGate?
    ensures TurnsAway(After(media, actions).value) <==> PastOf(media, actions).stale
  {
    RunKeepsPast(media, actions);
  }

  // A run that leaks ------------------------------------------------------------------------------

  lemma OneMore(media: nat, actions: seq<Action>, a: Action, t: State)
    requires After(media, actions).Some? && Enabled(After(media, actions).value, a) && Step(After(media, actions).value, a) == t
    ensures After(media, actions + [a]) == Some(t)
  {
    assert (actions + [a])[..|actions|] == actions;
  }

  lemma Adopts() returns (actions: seq<Action>)
    ensures After(0, actions)
         == Some(Fresh(0).(account := Account(2, multiset{}, multiset{}), place := InTable(Preloaded(1), Candidate(Some(0), Some(1)))))
  {
    var c, account := Candidate(Some(0), Some(1)), Account(2, multiset{}, multiset{});
    var s0 := Fresh(0);
    var s2 := s0.(probe := Some(c), account := account);
    var s3 := s2.(probe := None, prepared := Some(c));
    assert Leaves(s0.account, account, c);
    OneMore(0, [], Probed(account, c), s2);
    actions := [] + [Probed(account, c)];
    OneMore(0, actions, StorePrepared, s3);
    actions := actions + [StorePrepared];
    OneMore(0, actions, BeginActivation, s3.(active := true));
    actions := actions + [BeginActivation];
    OneMore(0, actions, ActivationSucceeds, s2.(probe := None, adopted := Some(c)));
    actions := actions + [ActivationSucceeds];
    OneMore(0, actions, Adopt(1), s2.(probe := None, place := InTable(Preloaded(1), c)));
    actions := actions + [Adopt(1)];
  }

  const HELD: Candidate := Candidate(Some(0), Some(1))

  const DEMANDING: TT.Task := TT.Demand(Preloaded(1), 1).(available := false, observed := false)

  function Replaced(place: Place): State { Fresh(0).(account := Account(2, multiset{}, multiset{}), media := 1, place := place) }

  lemma IsTurnedAway() returns (actions: seq<Action>)
    ensures After(0, actions) == Some(Replaced(TurnedAway(DEMANDING.(phase := TT.InFlight), HELD)))
  {
    actions := Adopts();
    OneMore(0, actions, Refresh, Replaced(InTable(Preloaded(1), HELD)));
    actions := actions + [Refresh];
    OneMore(0, actions, Take, Replaced(AtGate(Preloaded(1).(phase := TT.InFlight), HELD)));
    actions := actions + [Take];
    OneMore(0, actions, Enter(Account(2, multiset{}, multiset{})), Replaced(TurnedAway(DEMANDING.(phase := TT.InFlight), HELD)));
    actions := actions + [Enter(Account(2, multiset{}, multiset{}))];
  }

  /** The source is refreshed before the target's first worker takes the candidate, and
      the refreshed playlist ends without its segment: both payloads leak. */
  lemma RefreshBeforeFirstCommitLeaks() returns (actions: seq<Action>)
    ensures After(0, actions).Some? && Quiescent(After(0, actions).value)
    ensures After(0, actions).value.leaked == multiset{0, 1} && After(0, actions).value.account == Account(2, multiset{}, multiset{})
  {
    actions := IsTurnedAway();
    var waiting := Replaced(InTable(DEMANDING.(phase := TT.AwaitManifest, awaiting := true), HELD)).(clock := TT.Clock(true, 1, false, 0));
    OneMore(0, actions, Await(true), waiting);
    actions := actions + [Await(true)];
    assert waiting.leaked + Ids(Some(HELD)) == multiset{0, 1};
    OneMore(0, actions, EndStream(true), waiting.(place := NoTask, clock := TT.Clock(true, 1, true, 1), leaked := multiset{0, 1}));
    actions := actions + [EndStream(true)];
  }
}
