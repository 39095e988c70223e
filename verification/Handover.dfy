/** Engine handover. Any number of Engines share one durable archive behind the
    Host's ownership fence; each works on its own copy of the root and writes the
    whole root back under its token. */
module Handover {
  import opened Archive

  /** One archived segment: its source object, its ordinal, and the scheduler
      lifetime that committed it. */
  datatype Entry = Entry(key: Key, ordinal: Uint64, life: nat)

  datatype Token = Token(engine: nat, epoch: nat)

  /** Where an Engine's worker is. */
  datatype Phase =
    | Off
    | Prepared(root: seq<Entry>, candidate: Key)
    | Starting
    | Running(life: nat, first: Uint64, next: Uint64, live: map<Key, Uint64>, draining: bool)
    | Paused

  datatype Engine = Engine(phase: Phase, token: Token, mem: seq<Entry>)

  datatype State = State(owner: Token, durable: seq<Entry>, engines: map<nat, Engine>, lives: nat)

  function NextOrdinal(root: seq<Entry>): (n: nat)
    ensures n > 0 && forall i | 0 <= i < |root| :: root[i].ordinal < n
  {
    if root == [] then 1
    else
      var last := root[|root| - 1].ordinal;
      var rest := NextOrdinal(root[..|root| - 1]);
      assert forall i | 0 <= i < |root| - 1 :: root[i] == root[..|root| - 1][i];
      Max(last + 1, rest)
  }

  predicate HasKey(root: seq<Entry>, k: Key) {
    exists i | 0 <= i < |root| :: root[i].key == k
  }

  // Steps ---------------------------------------------------------------------------

  /** WithCommit: the token is the current owner's. */
  predicate MayCommit(s: State, e: nat) {
    e in s.engines && s.engines[e].token == s.owner
  }

  function Put(s: State, e: nat, engine: Engine): State {
    s.(engines := s.engines[e := engine])
  }

  /** newSegmentScheduler on the Engine's copy of the root. */
  predicate CanStart(s: State, e: nat) {
    e in s.engines && s.engines[e].phase == Starting && NextOrdinal(s.engines[e].mem) < MAX_UINT64
  }

  function Start(s: State, e: nat): State
    requires CanStart(s, e)
  {
    var first := NextOrdinal(s.engines[e].mem);
    Put(s, e, s.engines[e].(phase := Running(s.lives, first, first, map[], false))).(lives := s.lives + 1)
  }

  /** Discovery admits a new object; not once the worker drains. */
  predicate CanAdmit(s: State, e: nat, k: Key) {
    && e in s.engines && s.engines[e].phase.Running? && !s.engines[e].phase.draining
    && k !in s.engines[e].phase.live && !HasKey(s.engines[e].mem, k) && s.engines[e].phase.next < MAX_UINT64
  }

  function Admit(s: State, e: nat, k: Key): State
    requires CanAdmit(s, e, k)
  {
    var p := s.engines[e].phase;
    Put(s, e, s.engines[e].(phase := p.(next := p.next + 1, live := p.live[k := p.next])))
  }

  /** A live task ends without a commit: a gap, or a refused payload. */
  predicate CanForget(s: State, e: nat, k: Key) {
    e in s.engines && s.engines[e].phase.Running? && k in s.engines[e].phase.live
  }

  function Forget(s: State, e: nat, k: Key): State
    requires CanForget(s, e, k)
  {
    var p := s.engines[e].phase;
    Put(s, e, s.engines[e].(phase := p.(live := p.live - {k})))
  }

  /** persistSegment under the fence: the Engine's root with the new segment
      becomes the durable root. A stale token is refused and nothing changes. */
  function Commit(s: State, e: nat, k: Key): State
    requires CanForget(s, e, k)
  {
    var g := s.engines[e];
    if !MayCommit(s, e) then s
    else
      var root := g.mem + [Entry(k, g.phase.live[k], g.phase.life)];
      Put(s, e, g.(mem := root, phase := g.phase.(live := g.phase.live - {k}))).(durable := root)
  }

  /** Any other root update of a running Engine (observation, gaps, metadata). */
  predicate CanSave(s: State, e: nat) {
    e in s.engines && (s.engines[e].phase.Running? || s.engines[e].phase == Starting)
  }

  function Save(s: State, e: nat): State
    requires CanSave(s, e)
  {
    if MayCommit(s, e) then s.(durable := s.engines[e].mem) else s
  }

  /** The worker honours a pause request: no later manifest is admitted. */
  predicate CanDrain(s: State, e: nat) {
    e in s.engines && s.engines[e].phase.Running?
  }

  /** PauseForHandover reaches the worker, or times out and lets it go on. */
  function SetDraining(s: State, e: nat, on: bool): State
    requires CanDrain(s, e)
  {
    Put(s, e, s.engines[e].(phase := s.engines[e].phase.(draining := on)))
  }

  /** The drained scheduler is closed and the worker parks. */
  predicate CanPark(s: State, e: nat) {
    e in s.engines && s.engines[e].phase.Running? && s.engines[e].phase.draining && s.engines[e].phase.live == map[]
  }

  function Park(s: State, e: nat): State
    requires CanPark(s, e)
  {
    Put(s, e, s.engines[e].(phase := Paused))
  }

  /** The pausing caller gave up while the worker was parking: it starts over as the same owner. */
  predicate CanUnpark(s: State, e: nat) {
    e in s.engines && s.engines[e].phase == Paused
  }

  function Unpark(s: State, e: nat): State
    requires CanUnpark(s, e)
  {
    Put(s, e, s.engines[e].(phase := Starting))
  }

  /** A scheduler ends (a stop, a failure) and the Engine restarts it. */
  function Restart(s: State, e: nat): State
    requires CanDrain(s, e)
  {
    Put(s, e, s.engines[e].(phase := Starting))
  }

  /** ResumeHandover: the unchanged token, or a newer one of the same Engine that
      the fence accepts. The Engine keeps its copy of the root. */
  predicate CanResume(s: State, e: nat, t: Token) {
    && e in s.engines && s.engines[e].phase == Paused && t.engine == e
    && (t == s.engines[e].token || t.epoch > s.engines[e].token.epoch) && t == s.owner
  }

  function Resume(s: State, e: nat, t: Token): State
    requires CanResume(s, e, t)
  {
    Put(s, e, s.engines[e].(phase := Starting, token := t))
  }

  /** CompleteHandover: the fence must refuse the old token. */
  predicate CanComplete(s: State, e: nat) {
    e in s.engines && s.engines[e].phase == Paused && s.engines[e].token != s.owner
  }

  function Complete(s: State, e: nat): State
    requires CanComplete(s, e)
  {
    Put(s, e, s.engines[e].(phase := Off))
  }

  /** PrepareHandoverTarget: remember the root it was proved against. */
  predicate CanPrepare(s: State, e: nat, k: Key) {
    && e in s.engines && (s.engines[e].phase == Off || s.engines[e].phase.Prepared?) && !HasKey(s.durable, k)
  }

  function Prepare(s: State, e: nat, k: Key): State
    requires CanPrepare(s, e, k)
  {
    Put(s, e, s.engines[e].(phase := Prepared(s.durable, k)))
  }

  /** ActivatePreparedHandover: under the fence, the root must still be the one the
      candidate was proved against. */
  predicate CanActivate(s: State, e: nat, t: Token) {
    && e in s.engines && s.engines[e].phase.Prepared? && t.engine == e && t == s.owner
    && s.engines[e].phase.root == s.durable && NextOrdinal(s.durable) < MAX_UINT64
  }

  /** The target loads the root, and its first scheduler adopts the candidate. */
  function Activate(s: State, e: nat, t: Token): State
    requires CanActivate(s, e, t)
  {
    var first := NextOrdinal(s.durable);
    var k := s.engines[e].phase.candidate;
    Put(s, e, Engine(Running(s.lives, first, first + 1, map[k := first], false), t, s.durable)).(lives := s.lives + 1)
  }

  /** The Host moves ownership; every transfer gets a strictly larger epoch. */
  predicate CanTransfer(s: State, t: Token) {
    t.epoch > s.owner.epoch
  }

  datatype Action =
    | AStart(engine: nat)
    | AAdmit(engine: nat, key: Key)
    | AForget(engine: nat, key: Key)
    | ACommit(engine: nat, key: Key)
    | ASave(engine: nat)
    | ADraining(engine: nat, on: bool)
    | APark(engine: nat)
    | AUnpark(engine: nat)
    | ARestart(engine: nat)
    | AResume(engine: nat, token: Token)
    | AComplete(engine: nat)
    | APrepare(engine: nat, key: Key)
    | AActivate(engine: nat, token: Token)
    | ATransfer(token: Token)

  predicate Step(s: State, a: Action, t: State) {
    match a
    case AStart(e) => CanStart(s, e) && t == Start(s, e)
    case AAdmit(e, k) => CanAdmit(s, e, k) && t == Admit(s, e, k)
    case AForget(e, k) => CanForget(s, e, k) && t == Forget(s, e, k)
    case ACommit(e, k) => CanForget(s, e, k) && t == Commit(s, e, k)
    case ASave(e) => CanSave(s, e) && t == Save(s, e)
    case ADraining(e, on) => CanDrain(s, e) && t == SetDraining(s, e, on)
    case APark(e) => CanPark(s, e) && t == Park(s, e)
    case AUnpark(e) => CanUnpark(s, e) && t == Unpark(s, e)
    case ARestart(e) => CanDrain(s, e) && t == Restart(s, e)
    case AResume(e, k) => CanResume(s, e, k) && t == Resume(s, e, k)
    case AComplete(e) => CanComplete(s, e) && t == Complete(s, e)
    case APrepare(e, k) => CanPrepare(s, e, k) && t == Prepare(s, e, k)
    case AActivate(e, k) => CanActivate(s, e, k) && t == Activate(s, e, k)
    case ATransfer(k) => CanTransfer(s, k) && t == s.(owner := k)
  }

  predicate Run(states: seq<State>, actions: seq<Action>) {
    && |states| == |actions| + 1
    && forall i | 0 <= i < |actions| :: Step(states[i], actions[i], states[i + 1])
  }

  // Safety -----------------------------------------------------------------------------

  /** Each object once, ordinals distinct, and later lifetimes strictly above earlier ones. */
  predicate ArchiveOk(root: seq<Entry>) {
    && (forall i, j | 0 <= i < j < |root| :: root[i].key != root[j].key && root[i].ordinal != root[j].ordinal)
    && (forall i, j | 0 <= i < j < |root| :: root[i].life <= root[j].life)
    && (forall i, j | 0 <= i < j < |root| && root[i].life < root[j].life :: root[i].ordinal < root[j].ordinal)
  }

  /** The table of a running Engine that may commit. */
  predicate RunningOk(p: Phase, root: seq<Entry>) {
    p.Running? ==>
      && p.first <= p.next
      && (forall k | k in p.live :: p.first <= p.live[k] < p.next && !HasKey(root, k))
      && (forall k, l | k in p.live && l in p.live && k != l :: p.live[k] != p.live[l])
      && (forall i | 0 <= i < |root| :: root[i].life <= p.life)
      && (forall i | 0 <= i < |root| && root[i].life < p.life :: root[i].ordinal < p.first)
      && (forall i | 0 <= i < |root| && root[i].life == p.life :: root[i].ordinal < p.next)
      && (forall i, k | 0 <= i < |root| && k in p.live :: root[i].ordinal != p.live[k])
  }

  /** An Engine past its start: it has a copy of the root and works on it. */
  predicate Attached(p: Phase) { p == Starting || p.Running? || p == Paused }

  /** Whoever owns the recording works on the durable root itself. */
  predicate EngineOk(s: State, e: nat)
    requires e in s.engines
  {
    var g := s.engines[e];
    && g.token.engine == e && g.token.epoch <= s.owner.epoch
    && (g.phase.Running? ==> g.phase.life < s.lives)
    && (g.token == s.owner && Attached(g.phase) ==> g.mem == s.durable && RunningOk(g.phase, s.durable))
    && (g.phase.Prepared? ==> !HasKey(g.phase.root, g.phase.candidate))
  }

  predicate Inv(s: State) {
    && ArchiveOk(s.durable) && (forall i | 0 <= i < |s.durable| :: s.durable[i].life < s.lives)
    && forall e | e in s.engines :: EngineOk(s, e)
  }

  /** The archive did not change under a parked Engine. */
  predicate Undisturbed(s: State, a: Action) {
    a.AResume? && a.engine in s.engines ==> s.engines[a.engine].mem == s.durable
  }

  lemma OthersAreStale(s: State, e: nat, f: nat)
    requires Inv(s) && e in s.engines && f in s.engines && e != f && s.engines[e].token == s.owner
    ensures s.engines[f].token != s.owner
  {
    assert EngineOk(s, e) && EngineOk(s, f);
  }

  /** One Engine changed; the archive did not. */
  lemma LocalStep(s: State, t: State, e: nat)
    requires Inv(s) && e in s.engines && e in t.engines && t == s.(engines := s.engines[e := t.engines[e]], lives := t.lives) && s.lives <= t.lives
    requires EngineOk(t, e)
    ensures Inv(t)
  {
    forall f | f in t.engines ensures EngineOk(t, f) {
      if f != e { assert EngineOk(s, f); }
    }
  }

  lemma StartKeeps(s: State, e: nat)
    requires Inv(s) && CanStart(s, e)
    ensures Inv(Start(s, e))
  {
    assert EngineOk(s, e);
    LocalStep(s, Start(s, e), e);
  }

  lemma AdmitKeeps(s: State, e: nat, k: Key)
    requires Inv(s) && CanAdmit(s, e, k)
    ensures Inv(Admit(s, e, k))
  {
    assert EngineOk(s, e);
    LocalStep(s, Admit(s, e, k), e);
  }

  lemma ForgetKeeps(s: State, e: nat, k: Key)
    requires Inv(s) && CanForget(s, e, k)
    ensures Inv(Forget(s, e, k))
  {
    assert EngineOk(s, e);
    LocalStep(s, Forget(s, e, k), e);
  }

  /** The entry that the owner's commit appends. */
  predicate Follows(root: seq<Entry>, x: Entry) {
    forall i | 0 <= i < |root| ::
      root[i].key != x.key && root[i].ordinal != x.ordinal && root[i].life <= x.life && (root[i].life < x.life ==> root[i].ordinal < x.ordinal)
  }

  lemma CommitFollows(root: seq<Entry>, p: Phase, k: Key)
    requires p.Running? && RunningOk(p, root) && k in p.live
    ensures Follows(root, Entry(k, p.live[k], p.life))
  {
    assert !HasKey(root, k);
  }

  lemma ArchiveExtends(root: seq<Entry>, x: Entry)
    requires ArchiveOk(root) && Follows(root, x)
    ensures ArchiveOk(root + [x])
  {
  }

  lemma RunningExtends(root: seq<Entry>, p: Phase, k: Key)
    requires p.Running? && RunningOk(p, root) && k in p.live
    ensures RunningOk(p.(live := p.live - {k}), root + [Entry(k, p.live[k], p.life)])
  {
    forall l | l in p.live && l != k ensures !HasKey(root + [Entry(k, p.live[k], p.life)], l) {
      HasKeyLast(root, Entry(k, p.live[k], p.life), l);
    }
  }

  /** The archive after the owner's commit. */
  lemma CommitExtends(root: seq<Entry>, p: Phase, k: Key)
    requires ArchiveOk(root) && p.Running? && RunningOk(p, root) && k in p.live
    ensures ArchiveOk(root + [Entry(k, p.live[k], p.life)])
    ensures RunningOk(p.(live := p.live - {k}), root + [Entry(k, p.live[k], p.life)])
  {
    CommitFollows(root, p, k);
    ArchiveExtends(root, Entry(k, p.live[k], p.life));
    RunningExtends(root, p, k);
  }

  lemma HasKeyLast(root: seq<Entry>, x: Entry, l: Key)
    ensures HasKey(root + [x], l) <==> HasKey(root, l) || x.key == l
  {
    var all := root + [x];
    if HasKey(root, l) {
      var i :| 0 <= i < |root| && root[i].key == l;
      assert all[i].key == l;
    } else if x.key == l {
      assert all[|root|].key == l;
    }
  }

  lemma CommitKeeps(s: State, e: nat, k: Key)
    requires Inv(s) && CanForget(s, e, k)
    ensures Inv(Commit(s, e, k)) && s.durable <= Commit(s, e, k).durable
  {
    if MayCommit(s, e) {
      assert EngineOk(s, e);
      CommitExtends(s.durable, s.engines[e].phase, k);
      var t := Commit(s, e, k);
      forall f | f in t.engines ensures EngineOk(t, f) {
        if f != e {
          assert EngineOk(s, f);
          OthersAreStale(s, e, f);
        }
      }
    }
  }

  lemma SaveKeeps(s: State, e: nat)
    requires Inv(s) && CanSave(s, e)
    ensures Save(s, e) == s
  {
    assert EngineOk(s, e);
  }

  lemma PhaseKeeps(s: State, e: nat, on: bool)
    requires Inv(s)
    ensures CanDrain(s, e) ==> Inv(SetDraining(s, e, on)) && Inv(Restart(s, e))
    ensures CanPark(s, e) ==> Inv(Park(s, e))
    ensures CanUnpark(s, e) ==> Inv(Unpark(s, e))
    ensures CanComplete(s, e) ==> Inv(Complete(s, e))
  {
    if e in s.engines {
      assert EngineOk(s, e);
      if CanDrain(s, e) {
        LocalStep(s, SetDraining(s, e, on), e);
        LocalStep(s, Restart(s, e), e);
      }
      if CanPark(s, e) { LocalStep(s, Park(s, e), e); }
      if CanUnpark(s, e) { LocalStep(s, Unpark(s, e), e); }
      if CanComplete(s, e) { LocalStep(s, Complete(s, e), e); }
    }
  }

  lemma PrepareKeeps(s: State, e: nat, k: Key)
    requires Inv(s) && CanPrepare(s, e, k)
    ensures Inv(Prepare(s, e, k))
  {
    assert EngineOk(s, e);
    LocalStep(s, Prepare(s, e, k), e);
  }

  lemma ActivateKeeps(s: State, e: nat, t: Token)
    requires Inv(s) && CanActivate(s, e, t)
    ensures Inv(Activate(s, e, t))
  {
    assert EngineOk(s, e);
    LocalStep(s, Activate(s, e, t), e);
  }

  lemma TransferKeeps(s: State, t: Token)
    requires Inv(s) && CanTransfer(s, t)
    ensures Inv(s.(owner := t))
  {
    forall f | f in s.engines ensures EngineOk(s.(owner := t), f) {
      assert EngineOk(s, f);
    }
  }

  lemma ResumeKeeps(s: State, e: nat, t: Token)
    requires Inv(s) && CanResume(s, e, t) && s.engines[e].mem == s.durable
    ensures Inv(Resume(s, e, t))
  {
    assert EngineOk(s, e);
    LocalStep(s, Resume(s, e, t), e);
  }

  /** A pause aborted before any transfer meets the condition: the token is still
      the owner's, so nobody else can have committed. */
  lemma AbortedPauseIsUndisturbed(s: State, e: nat)
    requires Inv(s) && e in s.engines && CanResume(s, e, s.engines[e].token)
    ensures Undisturbed(s, AResume(e, s.engines[e].token))
  {
    assert EngineOk(s, e);
  }

  /** Every undisturbed step keeps the archive sound and only ever extends it. */
  lemma StepKeeps(s: State, a: Action, t: State)
    requires Inv(s) && Step(s, a, t) && Undisturbed(s, a)
    ensures Inv(t) && s.durable <= t.durable
  {
    match a
    case AStart(e) => StartKeeps(s, e);
    case AAdmit(e, k) => AdmitKeeps(s, e, k);
    case AForget(e, k) => ForgetKeeps(s, e, k);
    case ACommit(e, k) => CommitKeeps(s, e, k);
    case ASave(e) => SaveKeeps(s, e);
    case ADraining(e, on) => PhaseKeeps(s, e, on);
    case APark(e) => PhaseKeeps(s, e, true);
    case AUnpark(e) => PhaseKeeps(s, e, true);
    case ARestart(e) => PhaseKeeps(s, e, true);
    case AResume(e, k) => ResumeKeeps(s, e, k);
    case AComplete(e) => PhaseKeeps(s, e, true);
    case APrepare(e, k) => PrepareKeeps(s, e, k);
    case AActivate(e, k) => ActivateKeeps(s, e, k);
    case ATransfer(k) => TransferKeeps(s, k);
  }

  /** Only the current owner's root updates change the archive, in any run whatever. */
  lemma OnlyTheOwnerWrites(s: State, a: Action, t: State)
    requires Step(s, a, t) && t.durable != s.durable
    ensures (a.ACommit? || a.ASave?) && s.engines[a.engine].token == s.owner
  {
  }

  /** Ownership only ever moves to a strictly larger epoch. */
  lemma EpochsGrow(s: State, a: Action, t: State)
    requires Step(s, a, t)
    ensures t.owner == s.owner || t.owner.epoch > s.owner.epoch
  {
  }

  lemma {:induction false} RunKeeps(states: seq<State>, actions: seq<Action>, i: nat)
    requires Run(states, actions) && Inv(states[0]) && i < |states|
    requires forall j | 0 <= j < i :: Undisturbed(states[j], actions[j])
    ensures Inv(states[i])
  {
    if i > 0 {
      RunKeeps(states, actions, i - 1);
      StepKeeps(states[i - 1], actions[i - 1], states[i - 1 + 1]);
    }
  }

  lemma {:induction false} ArchiveGrows(states: seq<State>, actions: seq<Action>, i: nat, j: nat)
    requires Run(states, actions) && Inv(states[0]) && i <= j < |states|
    requires forall k | 0 <= k < j :: Undisturbed(states[k], actions[k])
    ensures states[i].durable <= states[j].durable
    decreases j
  {
    if i < j {
      ArchiveGrows(states, actions, i, j - 1);
      LastExtends(states, actions, j - 1);
      assert states[j - 1 + 1] == states[j];
      Prefixes(states[i].durable, states[j - 1].durable, states[j].durable);
    }
  }

  lemma LastExtends(states: seq<State>, actions: seq<Action>, j: nat)
    requires Run(states, actions) && Inv(states[0]) && j < |actions|
    requires forall k | 0 <= k <= j :: Undisturbed(states[k], actions[k])
    ensures states[j].durable <= states[j + 1].durable
  {
    RunKeeps(states, actions, j);
    StepKeeps(states[j], actions[j], states[j + 1]);
  }

  lemma Prefixes(a: seq<Entry>, b: seq<Entry>, c: seq<Entry>)
    requires a <= b && b <= c
    ensures a <= c
  {
  }

  /** Handover safety, over every interleaving of commits, pauses, timeouts,
      transfers, activations, resumes and restarts in which no Engine resumes over
      an archive that changed behind it: no archived segment is ever taken back, no
      object is archived twice, and a commit's ordinal exceeds every ordinal that
      an earlier scheduler lifetime of any Engine committed. */
  lemma HandoverSafety(states: seq<State>, actions: seq<Action>, i: nat, j: nat)
    requires Run(states, actions) && Inv(states[0]) && i <= j < |states|
    requires forall k | 0 <= k < j :: Undisturbed(states[k], actions[k])
    ensures states[i].durable <= states[j].durable
    ensures var root := states[j].durable;
      forall m, n | |states[i].durable| <= n < |root| && 0 <= m < n ::
        && root[m].key != root[n].key && root[m].ordinal != root[n].ordinal
        && (root[m].life != root[n].life ==> root[m].ordinal < root[n].ordinal)
  {
    ArchiveGrows(states, actions, i, j);
    RunKeeps(states, actions, j);
  }

  // Resuming -----------------------------------------------------------------------------------

  /** The copies that Engines work on are old versions of the archive. */
  predicate Prefixed(s: State) {
    forall e | e in s.engines && Attached(s.engines[e].phase) :: s.engines[e].mem <= s.durable
  }

  lemma StepPrefixes(s: State, a: Action, t: State)
    requires Inv(s) && Prefixed(s) && Step(s, a, t) && Undisturbed(s, a)
    ensures Prefixed(t)
  {
    StepKeeps(s, a, t);
    forall e | e in t.engines && Attached(t.engines[e].phase) ensures t.engines[e].mem <= t.durable {
      assert e in s.engines && EngineOk(s, e);
      if Attached(s.engines[e].phase) && t.engines[e].mem == s.engines[e].mem {
        assert s.engines[e].mem <= s.durable <= t.durable;
        Prefixes(s.engines[e].mem, s.durable, t.durable);
      }
    }
  }

  lemma {:induction false} RunPrefixes(states: seq<State>, actions: seq<Action>, i: nat)
    requires Run(states, actions) && Inv(states[0]) && Prefixed(states[0]) && i < |states|
    requires forall k | 0 <= k < i :: Undisturbed(states[k], actions[k])
    ensures Prefixed(states[i])
  {
    if i > 0 {
      RunPrefixes(states, actions, i - 1);
      RunKeeps(states, actions, i - 1);
      StepPrefixes(states[i - 1], actions[i - 1], states[i - 1 + 1]);
    }
  }

  /** Every token names its Engine, so the owner's token has one holder. */
  predicate TokensOk(s: State) { forall e | e in s.engines :: s.engines[e].token.engine == e }

  /** Engine e owns the recording, works on `mem`, and any scheduler it has is no older
      than lifetime `since`. */
  predicate Works(s: State, e: nat, mem: seq<Entry>, since: nat) {
    && TokensOk(s) && e in s.engines && s.engines[e].token == s.owner && Attached(s.engines[e].phase)
    && s.engines[e].mem == mem && since <= s.lives && (s.engines[e].phase.Running? ==> since <= s.engines[e].phase.life)
  }

  /** The next update of Engine e writes its copy, with one entry more if it is a commit. */
  predicate Writes(root: seq<Entry>, mem: seq<Entry>, since: nat) {
    root == mem || (|root| == |mem| + 1 && root[..|mem|] == mem && root[|mem|].life >= since)
  }

  predicate Old(root: seq<Entry>, since: nat) { forall i | 0 <= i < |root| :: root[i].life < since }

  /** As long as Engine e owns the recording, only its own update changes the root. */
  lemma OwnerStep(s: State, a: Action, t: State, e: nat, mem: seq<Entry>, since: nat)
    requires Works(s, e, mem, since) && Step(s, a, t) && t.owner == s.owner && Old(s.durable, since)
    ensures if t.durable == s.durable then Works(t, e, mem, since) else Writes(t.durable, mem, since)
  {
    assert forall f | f in s.engines && s.engines[f].token == s.owner :: f == e;
    if a.ACommit? && a.engine == e {
      assert t.durable[|mem|].life >= since;
    }
  }

  /** Nothing has reached the root since step r, and the owner is the same. */
  predicate Quiet(states: seq<State>, r: nat, n: nat)
    requires r <= n < |states|
  {
    forall i | r <= i <= n :: states[i].durable == states[r].durable && states[i].owner == states[r].owner
  }

  lemma {:induction false} KeepsWorking(states: seq<State>, actions: seq<Action>, r: nat, n: nat, e: nat, mem: seq<Entry>, since: nat)
    requires Run(states, actions) && r <= n < |states| && Quiet(states, r, n) && Works(states[r], e, mem, since)
    requires Old(states[r].durable, since)
    ensures Works(states[n], e, mem, since)
  {
    if n > r {
      assert Quiet(states, r, n - 1);
      KeepsWorking(states, actions, r, n - 1, e, mem, since);
      OwnerStep(states[n - 1], actions[n - 1], states[n - 1 + 1], e, mem, since);
    }
  }

  /** What a written root keeps of an older one. */
  lemma WrittenKeeps(before: seq<Entry>, after: seq<Entry>, mem: seq<Entry>, since: nat, i: nat)
    requires ArchiveOk(before) && Old(before, since) && mem <= before && Writes(after, mem, since) && i < |before|
    ensures before[i] in after <==> i < |mem|
  {
    assert forall j | 0 <= j < |mem| :: after[..|mem|][j] == mem[j] == before[j];
    assert forall j | 0 <= j < |mem| :: after[j] == before[j];
    forall j | 0 <= j < |after| && i >= |mem| ensures after[j] != before[i] {
    }
  }

  lemma FirstWrite(states: seq<State>, actions: seq<Action>, r: nat, n: nat, e: nat, mem: seq<Entry>, since: nat)
    requires Run(states, actions) && r <= n < |actions| && Quiet(states, r, n) && Works(states[r], e, mem, since)
    requires Old(states[r].durable, since)
    requires states[n + 1].owner == states[r].owner && states[n + 1].durable != states[r].durable
    ensures Writes(states[n + 1].durable, mem, since)
  {
    KeepsWorking(states, actions, r, n, e, mem, since);
    OwnerStep(states[n], actions[n], states[n + 1], e, mem, since);
  }

  lemma ResumedWorks(s: State, e: nat, t: Token)
    requires Inv(s) && Prefixed(s) && CanResume(s, e, t)
    ensures Works(Resume(s, e, t), e, s.engines[e].mem, s.lives)
    ensures s.engines[e].mem <= s.durable && Old(s.durable, s.lives) && ArchiveOk(s.durable)
  {
    forall f | f in s.engines ensures s.engines[f].token.engine == f {
      assert EngineOk(s, f);
    }
  }

  /** A run that is undisturbed until it resumes Engine e at step r, and in which the
      first update of the root after that lands at step n, before ownership moves again. */
  predicate ResumesThenWrites(states: seq<State>, actions: seq<Action>, r: nat, n: nat, e: nat) {
    && Run(states, actions) && Inv(states[0]) && Prefixed(states[0]) && r < n < |actions|
    && (forall k | 0 <= k < r :: Undisturbed(states[k], actions[k]))
    && actions[r].AResume? && actions[r].engine == e
    && Quiet(states, r, n) && states[n + 1].owner == states[r].owner && states[n + 1].durable != states[r].durable
  }

  /** The first update after a resume keeps exactly what the Engine's copy holds: what was
      archived behind it is lost, entry for entry. */
  lemma ResumeLosesTheRest(states: seq<State>, actions: seq<Action>, r: nat, n: nat, e: nat, i: nat)
    requires ResumesThenWrites(states, actions, r, n, e) && i < |states[r].durable|
    ensures e in states[r].engines && states[r].engines[e].mem <= states[r].durable
    ensures states[r].durable[i] in states[n + 1].durable <==> i < |states[r].engines[e].mem|
  {
    RunKeeps(states, actions, r);
    RunPrefixes(states, actions, r);
    assert Step(states[r], actions[r], states[r + 1]);
    var mem, since := states[r].engines[e].mem, states[r].lives;
    ResumedWorks(states[r], e, actions[r].token);
    assert states[r + 1].durable == states[r].durable && states[r + 1].owner == states[r].owner;
    assert Quiet(states, r + 1, n);
    FirstWrite(states, actions, r + 1, n, e, mem, since);
    WrittenKeeps(states[r].durable, states[n + 1].durable, mem, since, i);
  }

  predicate ParkedAt(s: State, e: nat) { e in s.engines && s.engines[e].phase == Paused }

  /** Engine e parked as the owner at step p and stayed parked until step r. */
  predicate ParkedFrom(states: seq<State>, p: nat, r: nat, e: nat)
    requires p <= r < |states|
  {
    && (forall k | p <= k <= r :: ParkedAt(states[k], e))
    && states[p].engines[e].token == states[p].owner
  }

  /** Step j is an update of another Engine, and reaches the root. */
  predicate OtherWrites(states: seq<State>, actions: seq<Action>, j: nat, e: nat)
    requires j < |states| - 1 && j < |actions|
  {
    states[j + 1].durable != states[j].durable && (actions[j].ACommit? || actions[j].ASave?) && actions[j].engine != e
  }

  /** An update of another Engine reached the root between steps p and r. */
  predicate OtherWrote(states: seq<State>, actions: seq<Action>, p: nat, r: nat, e: nat)
    requires p <= r < |states| && r <= |actions|
  {
    exists j | p <= j < r :: OtherWrites(states, actions, j, e)
  }

  lemma ParkedStep(s: State, a: Action, t: State, e: nat)
    requires Step(s, a, t) && ParkedAt(s, e) && ParkedAt(t, e)
    ensures t.engines[e].mem == s.engines[e].mem
    ensures t.durable != s.durable ==> (a.ACommit? || a.ASave?) && a.engine != e
  {
  }

  /** Step j leaves the copy of a parked Engine alone, and only another Engine writes to the root. */
  predicate LeavesCopy(states: seq<State>, actions: seq<Action>, j: nat, e: nat)
    requires j < |states| - 1 && j < |actions|
  {
    && e in states[j].engines && e in states[j + 1].engines && states[j + 1].engines[e].mem == states[j].engines[e].mem
    && (states[j + 1].durable != states[j].durable ==> OtherWrites(states, actions, j, e))
  }

  lemma ParkedStepAt(states: seq<State>, actions: seq<Action>, j: nat, e: nat)
    requires Run(states, actions) && j < |actions| && ParkedAt(states[j], e) && ParkedAt(states[j + 1], e)
    ensures LeavesCopy(states, actions, j, e)
  {
    ParkedStep(states[j], actions[j], states[j + 1], e);
  }

  lemma {:induction false} CopyStays(states: seq<State>, actions: seq<Action>, p: nat, r: nat, e: nat)
    requires |states| == |actions| + 1 && p <= r < |states| && e in states[p].engines
    requires forall j | p <= j < r :: LeavesCopy(states, actions, j, e)
    ensures e in states[r].engines && states[r].engines[e].mem == states[p].engines[e].mem
    ensures states[r].durable != states[p].durable ==> OtherWrote(states, actions, p, r, e)
  {
    if p < r {
      CopyStays(states, actions, p, r - 1, e);
      assert LeavesCopy(states, actions, r - 1, e);
    }
  }

  lemma ParkedKeepsCopy(states: seq<State>, actions: seq<Action>, p: nat, r: nat, e: nat)
    requires Run(states, actions) && p <= r < |states| && ParkedFrom(states, p, r, e)
    ensures states[r].engines[e].mem == states[p].engines[e].mem
    ensures states[r].durable != states[p].durable ==> OtherWrote(states, actions, p, r, e)
  {
    forall j | p <= j < r ensures LeavesCopy(states, actions, j, e) { ParkedStepAt(states, actions, j, e); }
    CopyStays(states, actions, p, r, e);
  }

  /** A root that was written to is longer afterwards. */
  lemma WrittenGrows(states: seq<State>, actions: seq<Action>, p: nat, r: nat, e: nat)
    requires Run(states, actions) && Inv(states[0]) && p <= r < |states| && OtherWrote(states, actions, p, r, e)
    requires forall k | 0 <= k < r :: Undisturbed(states[k], actions[k])
    ensures |states[p].durable| < |states[r].durable|
  {
    var j :| p <= j < r && OtherWrites(states, actions, j, e);
    ArchiveGrows(states, actions, p, j);
    ArchiveGrows(states, actions, j, j + 1);
    ArchiveGrows(states, actions, j + 1, r);
  }

  /** What the archive holds beyond the copy of a parked Engine. */
  lemma ParkedIsBehind(states: seq<State>, actions: seq<Action>, p: nat, r: nat, e: nat)
    requires Run(states, actions) && Inv(states[0]) && p <= r < |states| && ParkedFrom(states, p, r, e)
    requires forall k | 0 <= k < r :: Undisturbed(states[k], actions[k])
    ensures OtherWrote(states, actions, p, r, e) <==> |states[r].engines[e].mem| < |states[r].durable|
  {
    RunKeeps(states, actions, p);
    assert EngineOk(states[p], e);
    ParkedKeepsCopy(states, actions, p, r, e);
    if OtherWrote(states, actions, p, r, e) {
      WrittenGrows(states, actions, p, r, e);
    }
  }

  /** When a resume is safe. Resuming a parked Engine loses an archived entry, at the
      first update afterwards, if and only if another Engine's update reached the root
      while it was parked; the Host can see that before it resumes. */
  lemma ResumeLosesIff(states: seq<State>, actions: seq<Action>, p: nat, r: nat, n: nat, e: nat)
    requires ResumesThenWrites(states, actions, r, n, e) && p <= r && ParkedFrom(states, p, r, e)
    ensures OtherWrote(states, actions, p, r, e)
        <==> (exists i | 0 <= i < |states[r].durable| :: states[r].durable[i] !in states[n + 1].durable)
  {
    ParkedIsBehind(states, actions, p, r, e);
    forall i | 0 <= i < |states[r].durable|
      ensures states[r].durable[i] in states[n + 1].durable <==> i < |states[r].engines[e].mem|
    {
      ResumeLosesTheRest(states, actions, r, n, e, i);
    }
    if |states[r].engines[e].mem| < |states[r].durable| {
      assert states[r].durable[|states[r].engines[e].mem|] !in states[n + 1].durable;
    }
  }

  // A rollback over a changed archive ------------------------------------------------------

  lemma Extend(states: seq<State>, actions: seq<Action>, a: Action, t: State) returns (ss: seq<State>, bs: seq<Action>)
    requires Run(states, actions) && Step(states[|actions|], a, t)
    ensures Run(ss, bs) && states <= ss && ss[|bs|] == t
  {
    ss, bs := states + [t], actions + [a];
    forall i | 0 <= i < |bs| ensures Step(ss[i], bs[i], ss[i + 1]) {
      if i < |actions| { assert Step(states[i], actions[i], states[i + 1]); }
    }
  }

  const SOURCE: Token := Token(0, 1)
  const TARGET: Token := Token(1, 2)
  const ROLLBACK: Token := Token(0, 3)

  function Fresh(): State {
    State(SOURCE, [], map[0 := Engine(Starting, SOURCE, []), 1 := Engine(Off, Token(1, 0), [])], 0)
  }

  /** The source has archived object 7 and is parked. */
  function SourceParked(): State {
    State(SOURCE, [Entry(Key(0, 7), 1, 0)],
      map[0 := Engine(Paused, SOURCE, [Entry(Key(0, 7), 1, 0)]), 1 := Engine(Off, Token(1, 0), [])], 1)
  }

  lemma SourceParks() returns (states: seq<State>, actions: seq<Action>)
    ensures Run(states, actions) && states[0] == Fresh() && states[|actions|] == SourceParked()
  {
    var s0 := Fresh();
    assert NextOrdinal([]) == 1;
    var s1 := Start(s0, 0);
    var s2 := Admit(s1, 0, Key(0, 7));
    var s3 := Commit(s2, 0, Key(0, 7));
    states, actions := Extend([s0], [], AStart(0), s1);
    states, actions := Extend(states, actions, AAdmit(0, Key(0, 7)), s2);
    states, actions := Extend(states, actions, ACommit(0, Key(0, 7)), s3);
    states, actions := Extend(states, actions, ADraining(0, true), SetDraining(s3, 0, true));
    assert s3.engines[0].phase.live == map[];
    states, actions := Extend(states, actions, APark(0), Park(SetDraining(s3, 0, true), 0));
    assert s3.durable == SourceParked().durable && s3.engines[0].mem == SourceParked().durable;
    var parked := Park(SetDraining(s3, 0, true), 0);
    assert parked.engines[0] == SourceParked().engines[0] && parked.engines[1] == SourceParked().engines[1];
    assert parked.engines == SourceParked().engines;
  }

  /** The target takes over, archives object 8, and the Host rolls back. */
  function RolledBack(): State {
    State(ROLLBACK, [Entry(Key(0, 7), 1, 0), Entry(Key(0, 8), 2, 1)],
      map[0 := Engine(Paused, SOURCE, [Entry(Key(0, 7), 1, 0)]),
          1 := Engine(Running(1, 2, 3, map[], false), TARGET, [Entry(Key(0, 7), 1, 0), Entry(Key(0, 8), 2, 1)])], 2)
  }

  lemma TargetCommitsAndRollsBack(before: seq<State>, past: seq<Action>) returns (states: seq<State>, actions: seq<Action>)
    requires Run(before, past) && before[|past|] == SourceParked()
    ensures Run(states, actions) && before <= states && states[|actions|] == RolledBack()
  {
    var root := [Entry(Key(0, 7), 1, 0)];
    assert root[..0] == [] && NextOrdinal(root) == 2;
    var s1 := Prepare(SourceParked(), 1, Key(0, 8));
    var s2 := s1.(owner := TARGET);
    var s3 := Activate(s2, 1, TARGET);
    var s4 := Commit(s3, 1, Key(0, 8));
    states, actions := Extend(before, past, APrepare(1, Key(0, 8)), s1);
    states, actions := Extend(states, actions, ATransfer(TARGET), s2);
    states, actions := Extend(states, actions, AActivate(1, TARGET), s3);
    states, actions := Extend(states, actions, ACommit(1, Key(0, 8)), s4);
    states, actions := Extend(states, actions, ATransfer(ROLLBACK), s4.(owner := ROLLBACK));
    assert s4.engines[1].phase.live == map[];
    assert s4.engines[0] == RolledBack().engines[0] && s4.engines[1] == RolledBack().engines[1];
    assert s4.engines == RolledBack().engines;
  }

  /** The condition is needed: after a rollback over the target's commit, the source
      resumes on its own copy, gives the ordinal of the target's segment to another
      object, and the target's segment is gone from the archive. */
  lemma RollbackOverCommitsLoses() returns (states: seq<State>, actions: seq<Action>)
    ensures Run(states, actions) && Inv(states[0])
    ensures states[|actions|].durable == [Entry(Key(0, 7), 1, 0), Entry(Key(0, 9), 2, 2)]
    ensures exists i | 0 <= i < |states| :: Entry(Key(0, 8), 2, 1) in states[i].durable
  {
    states, actions := SourceParks();
    states, actions := TargetCommitsAndRollsBack(states, actions);
    assert Entry(Key(0, 8), 2, 1) in states[|actions|].durable;
    ghost var middle := |actions|;
    states, actions := SourceResumes(states, actions);
  }

  lemma SourceResumes(before: seq<State>, past: seq<Action>) returns (states: seq<State>, actions: seq<Action>)
    requires Run(before, past) && before[|past|] == RolledBack()
    ensures Run(states, actions) && before <= states
    ensures states[|actions|].durable == [Entry(Key(0, 7), 1, 0), Entry(Key(0, 9), 2, 2)]
  {
    var root := [Entry(Key(0, 7), 1, 0)];
    assert root[..0] == [] && NextOrdinal(root) == 2;
    var s1 := Resume(RolledBack(), 0, ROLLBACK);
    var s2 := Start(s1, 0);
    var s3 := Admit(s2, 0, Key(0, 9));
    var s4 := Commit(s3, 0, Key(0, 9));
    states, actions := Extend(before, past, AResume(0, ROLLBACK), s1);
    states, actions := Extend(states, actions, AStart(0), s2);
    states, actions := Extend(states, actions, AAdmit(0, Key(0, 9)), s3);
    states, actions := Extend(states, actions, ACommit(0, Key(0, 9)), s4);
  }
}
