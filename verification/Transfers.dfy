/** What a handover achieves: from every state an Engine can be drained and parked, its
    recording can move to another Engine with the archive untouched, and a parked or
    failed Engine can go back to work. */
module Transfers {
  import opened Archive
  import opened Handover

  /** Some `n` steps lead from `s` to `t`. */
  ghost predicate Leads(s: State, t: State, n: nat) {
    exists states, actions :: Run(states, actions) && |actions| == n && states[0] == s && states[n] == t
  }

  lemma {:induction false} Nothing(s: State)
    ensures Leads(s, s, 0)
  {
    assert Run([s], []);
  }

  lemma {:induction false} One(s: State, a: Action, t: State)
    requires Step(s, a, t)
    ensures Leads(s, t, 1)
  {
    assert Run([s, t], [a]);
  }

  lemma {:induction false} Joins(first: seq<State>, before: seq<Action>, second: seq<State>, after: seq<Action>)
    requires Run(first, before) && Run(second, after) && first[|before|] == second[0]
    ensures Run(first + second[1..], before + after)
  {
    var states, actions := first + second[1..], before + after;
    forall i | 0 <= i < |actions| ensures Step(states[i], actions[i], states[i + 1]) {
      if i < |before| { assert Step(first[i], before[i], first[i + 1]); }
      else { assert Step(second[i - |before|], after[i - |before|], second[i - |before| + 1]); }
    }
  }

  lemma {:induction false} Then(s: State, t: State, u: State, m: nat, n: nat)
    requires Leads(s, t, m) && Leads(t, u, n)
    ensures Leads(s, u, m + n)
  {
    var first, before :| Run(first, before) && |before| == m && first[0] == s && first[m] == t;
    var second, after :| Run(second, after) && |after| == n && second[0] == t && second[n] == u;
    Joins(first, before, second, after);
    assert (first + second[1..])[m + n] == u;
  }

  /** Only Engine e changed, and not its copy of the root. */
  predicate Only(s: State, t: State, e: nat) {
    && e in s.engines && e in t.engines && t.engines == s.engines[e := t.engines[e]]
    && t.durable == s.durable && t.owner == s.owner
  }

  /** Engine e works with no object in hand. */
  predicate Drained(s: State, e: nat) { e in s.engines && s.engines[e].phase.Running? && s.engines[e].phase.live == map[] }

  lemma {:induction false} Forgets(s: State, e: nat, k: Key) returns (t: State)
    requires CanForget(s, e, k)
    ensures Leads(s, t, 1) && Only(s, t, e)
    ensures t.engines[e] == s.engines[e].(phase := s.engines[e].phase.(live := s.engines[e].phase.live - {k}))
  {
    t := Forget(s, e, k);
    One(s, AForget(e, k), t);
  }

  /** Ending its tasks one after the other, without a commit, drains an Engine. */
  lemma {:induction false} Drains(s: State, e: nat) returns (t: State)
    requires e in s.engines && s.engines[e].phase.Running?
    ensures Leads(s, t, |s.engines[e].phase.live|) && Only(s, t, e) && Drained(t, e)
    ensures t.engines[e] == s.engines[e].(phase := s.engines[e].phase.(live := map[]))
    decreases |s.engines[e].phase.live|
  {
    var live := s.engines[e].phase.live;
    if live == map[] {
      t := s;
      Nothing(s);
    } else {
      assert live.Keys != {};
      var k :| k in live.Keys;
      var u := Forgets(s, e, k);
      assert (live - {k}).Keys == live.Keys - {k} && |(live - {k}).Keys| == |live - {k}| && |live.Keys| == |live|;
      t := Drains(u, e);
      Then(s, u, t, 1, |live| - 1);
    }
  }

  lemma {:induction false} AsksToDrain(s: State, e: nat) returns (t: State)
    requires e in s.engines && s.engines[e].phase.Running?
    ensures Leads(s, t, 1) && Only(s, t, e)
    ensures t.engines[e] == s.engines[e].(phase := s.engines[e].phase.(draining := true))
  {
    t := SetDraining(s, e, true);
    One(s, ADraining(e, true), t);
  }

  lemma {:induction false} Parks(s: State, e: nat) returns (t: State)
    requires Drained(s, e) && s.engines[e].phase.draining
    ensures Leads(s, t, 1) && Only(s, t, e) && t.engines[e] == s.engines[e].(phase := Paused)
  {
    t := Park(s, e);
    One(s, APark(e), t);
  }

  /** Every running Engine can be paused, with its copy of the root and the archive untouched. */
  lemma {:induction false} Pauses(s: State, e: nat) returns (t: State)
    requires e in s.engines && s.engines[e].phase.Running?
    ensures Leads(s, t, |s.engines[e].phase.live| + 2) && Only(s, t, e) && t.engines[e] == s.engines[e].(phase := Paused)
  {
    var a := AsksToDrain(s, e);
    var b := Drains(a, e);
    t := Parks(b, e);
    Then(s, a, b, 1, |s.engines[e].phase.live|);
    Then(s, b, t, |s.engines[e].phase.live| + 1, 1);
  }

  /** An Engine that has just parked has no object in hand. */
  lemma {:induction false} ParkedIsDrained(s: State, a: Action, t: State, e: nat)
    requires Step(s, a, t) && e in s.engines && e in t.engines && t.engines[e].phase == Paused && s.engines[e].phase != Paused
    ensures Drained(s, e) && s.engines[e].phase.draining
  {
  }

  // Moving on ---------------------------------------------------------------------------------------

  /** Engine f works, as the owner, on the present archive, with object k in hand under an
      ordinal above all archived ones. */
  predicate TakesOver(s: State, f: nat, k: Key) {
    && f in s.engines && s.engines[f].token == s.owner && s.engines[f].mem == s.durable && s.engines[f].phase.Running?
    && s.engines[f].phase.live.Keys == {k} && !s.engines[f].phase.draining
    && forall i | 0 <= i < |s.durable| :: s.durable[i].ordinal < s.engines[f].phase.live[k]
  }

  lemma {:induction false} Prepares(s: State, f: nat, k: Key) returns (t: State)
    requires CanPrepare(s, f, k)
    ensures Leads(s, t, 1) && Only(s, t, f) && t.engines[f] == s.engines[f].(phase := Prepared(s.durable, k)) && t.lives == s.lives
  {
    t := Prepare(s, f, k);
    One(s, APrepare(f, k), t);
  }

  lemma {:induction false} Moves(s: State, token: Token) returns (t: State)
    requires token.epoch > s.owner.epoch
    ensures Leads(s, t, 1) && t == s.(owner := token)
  {
    t := s.(owner := token);
    One(s, ATransfer(token), t);
  }

  lemma {:induction false} Activates(s: State, f: nat, k: Key) returns (t: State)
    requires f in s.engines && s.engines[f].phase == Prepared(s.durable, k) && s.owner.engine == f && NextOrdinal(s.durable) < MAX_UINT64
    ensures Leads(s, t, 1) && Only(s, t, f) && TakesOver(t, f, k)
  {
    t := Activate(s, f, s.owner);
    One(s, AActivate(f, s.owner), t);
  }

  lemma {:induction false} Lets(s: State, e: nat) returns (t: State)
    requires e in s.engines && s.engines[e].phase == Paused && s.engines[e].token != s.owner
    ensures Leads(s, t, 1) && Only(s, t, e) && t.engines[e] == s.engines[e].(phase := Off)
  {
    t := Complete(s, e);
    One(s, AComplete(e), t);
  }

  lemma {:induction false} PreparesAndMoves(s: State, f: nat, k: Key, token: Token) returns (t: State)
    requires CanPrepare(s, f, k) && token.epoch > s.owner.epoch
    ensures Leads(s, t, 2) && t.durable == s.durable && t.owner == token && f in t.engines
    ensures t.engines == s.engines[f := s.engines[f].(phase := Prepared(s.durable, k))]
  {
    var u := Prepares(s, f, k);
    t := Moves(u, token);
    Then(s, u, t, 1, 1);
  }

  /** A parked Engine's recording can move to an idle one: four steps later the target works
      on the same archive with its candidate in hand, the source is off, and every other
      Engine is as before. */
  lemma {:induction false} HandsOver(s: State, e: nat, f: nat, k: Key, token: Token) returns (t: State)
    requires e in s.engines && f in s.engines && e != f && s.engines[e].phase == Paused && s.engines[f].phase == Off
    requires !HasKey(s.durable, k) && NextOrdinal(s.durable) < MAX_UINT64
    requires token.engine == f && token.epoch > s.owner.epoch && s.engines[e].token.epoch <= s.owner.epoch
    ensures Leads(s, t, 4) && t.durable == s.durable && t.owner == token && TakesOver(t, f, k)
    ensures e in t.engines && t.engines[e].phase == Off && t.engines == s.engines[e := t.engines[e]][f := t.engines[f]]
  {
    var a := PreparesAndMoves(s, f, k, token);
    var b := Activates(a, f, k);
    t := Lets(b, e);
    Then(s, a, b, 2, 1);
    Then(s, b, t, 3, 1);
  }

  /** The whole handover, from any state of the two Engines in which the source works as the
      owner: nothing that the source had archived is lost. */
  lemma {:induction false} MovesRecording(s: State, e: nat, f: nat, k: Key, token: Token) returns (t: State)
    requires Inv(s) && e in s.engines && f in s.engines && e != f && s.engines[e].phase.Running? && s.engines[f].phase == Off
    requires !HasKey(s.durable, k) && NextOrdinal(s.durable) < MAX_UINT64 && token.engine == f && token.epoch > s.owner.epoch
    ensures Leads(s, t, |s.engines[e].phase.live| + 6) && t.durable == s.durable && t.owner == token && TakesOver(t, f, k)
    ensures e in t.engines && t.engines[e].phase == Off && t.engines == s.engines[e := t.engines[e]][f := t.engines[f]]
  {
    assert EngineOk(s, e);
    var a := Pauses(s, e);
    t := HandsOver(a, e, f, k, token);
    Then(s, a, t, |s.engines[e].phase.live| + 2, 4);
  }

  // Going back to work --------------------------------------------------------------------------------

  /** Engine e has a new scheduler, on its own copy of the root. */
  predicate Restarted(s: State, t: State, e: nat) {
    && e in s.engines && e in t.engines && t.engines == s.engines[e := t.engines[e]] && t.durable == s.durable && t.owner == s.owner
    && t.engines[e].mem == s.engines[e].mem && t.lives == s.lives + 1
    && exists n: Uint64 :: t.engines[e].phase == Running(s.lives, n, n, map[], false)
                           && forall i | 0 <= i < |s.engines[e].mem| :: s.engines[e].mem[i].ordinal < n
  }

  lemma {:induction false} Starts(s: State, e: nat) returns (t: State)
    requires e in s.engines && s.engines[e].phase == Starting && NextOrdinal(s.engines[e].mem) < MAX_UINT64
    ensures Leads(s, t, 1) && Restarted(s, t, e) && t.engines[e].token == s.engines[e].token
  {
    t := Start(s, e);
    One(s, AStart(e), t);
  }

  /** A parked Engine resumes under its own token or a newer one of its own. */
  lemma {:induction false} GoesOn(s: State, e: nat, token: Token) returns (t: State)
    requires e in s.engines && s.engines[e].phase == Paused && NextOrdinal(s.engines[e].mem) < MAX_UINT64
    requires token == s.owner && token.engine == e && (token == s.engines[e].token || token.epoch > s.engines[e].token.epoch)
    ensures Leads(s, t, 2) && Restarted(s, t, e) && t.engines[e].token == token
  {
    var u := Resume(s, e, token);
    One(s, AResume(e, token), u);
    t := Starts(u, e);
    Then(s, u, t, 1, 1);
  }

  /** An Engine resumes under the owner's token, which is its own or a later one that names it. */
  lemma {:induction false} ResumesForward(s: State, token: Token, t: State, e: nat)
    requires Step(s, AResume(e, token), t)
    ensures token == s.owner == t.owner && e in s.engines && e in t.engines && t.engines[e].token == token && token.engine == e
    ensures token == s.engines[e].token || token.epoch > s.engines[e].token.epoch
  {
  }

  /** A pause whose caller gave up: the Engine starts over as it was. */
  lemma {:induction false} GivesUpPause(s: State, e: nat) returns (t: State)
    requires e in s.engines && s.engines[e].phase == Paused && NextOrdinal(s.engines[e].mem) < MAX_UINT64
    ensures Leads(s, t, 2) && Restarted(s, t, e) && t.engines[e].token == s.engines[e].token
  {
    var u := Unpark(s, e);
    One(s, AUnpark(e), u);
    t := Starts(u, e);
    Then(s, u, t, 1, 1);
  }

  /** A scheduler that ended is replaced; what it had in hand is forgotten. */
  lemma {:induction false} StartsOver(s: State, e: nat) returns (t: State)
    requires e in s.engines && s.engines[e].phase.Running? && NextOrdinal(s.engines[e].mem) < MAX_UINT64
    ensures Leads(s, t, 2) && Restarted(s, t, e) && t.engines[e].token == s.engines[e].token
  {
    var u := Restart(s, e);
    One(s, ARestart(e), u);
    t := Starts(u, e);
    Then(s, u, t, 1, 1);
  }

  /** Resuming over an archive that changed loses entries even without a commit: the first
      save of any kind puts the Engine's copy in the place of the archive. */
  lemma {:induction false} SaveAloneLoses(s: State, e: nat, token: Token) returns (t: State)
    requires e in s.engines && s.engines[e].phase == Paused && token == s.owner && token.engine == e
    requires token == s.engines[e].token || token.epoch > s.engines[e].token.epoch
    ensures Leads(s, t, 2) && t.durable == s.engines[e].mem
  {
    var u := Resume(s, e, token);
    t := Save(u, e);
    One(s, AResume(e, token), u);
    One(u, ASave(e), t);
    Then(s, u, t, 1, 1);
  }
}
