/** The prepare half of a handover: the target Engine probes for a candidate, downloads
    its first objects and stores it. Whatever fails on the way, every payload that was
    downloaded is released exactly once, or belongs to the stored candidate. */
module Preparation {
  import opened Archive
  import opened Payloads

  function HoldsAny(c: Option<Candidate>, p: nat): nat { if c == None then 0 else Holds(c.value, p) }

  /** From one account to the next, everything downloaded was released or handed over
      exactly once, except the payloads of `c`, which were not touched. */
  ghost predicate Leaves(before: Account, after: Account, c: Candidate) {
    && before.issued <= after.issued
    && forall p: nat :: after.Fate(p) + Holds(c, p) == before.Fate(p) + New(before.issued, after.issued, p)
  }

  /** Every payload was owned by the stored candidate or settled before, and is so after. */
  ghost predicate Keeps(before: Account, had: Option<Candidate>, after: Account, has: Option<Candidate>) {
    && before.issued <= after.issued
    && forall p: nat :: after.Fate(p) + HoldsAny(has, p) == before.Fate(p) + HoldsAny(had, p) + New(before.issued, after.issued, p)
  }

  lemma SettledThenLeft(a: Account, b: Account, c: Account, x: Candidate)
    requires Settles(a, b, NOTHING) && Leaves(b, c, x)
    ensures Leaves(a, c, x)
  {
    forall p: nat ensures c.Fate(p) + Holds(x, p) == a.Fate(p) + New(a.issued, c.issued, p) {
      assert b.Fate(p) == a.Fate(p) + Holds(NOTHING, p) + New(a.issued, b.issued, p);
    }
  }

  lemma LeftThenSettled(a: Account, b: Account, c: Account, x: Candidate)
    requires Leaves(a, b, x) && Settles(b, c, x)
    ensures Settles(a, c, NOTHING)
  {
    forall p: nat ensures c.Fate(p) == a.Fate(p) + Holds(NOTHING, p) + New(a.issued, c.issued, p) {
      assert b.Fate(p) + Holds(x, p) == a.Fate(p) + New(a.issued, b.issued, p);
    }
  }

  lemma OneDownloaded(a: Account, b: Account)
    requires b == a.(issued := a.issued + 1)
    ensures Leaves(a, b, Candidate(Some(a.issued), None)) && Leaves(a, b, Candidate(None, Some(a.issued)))
  {
  }

  lemma OneMoreDownloaded(a: Account, b: Account, c: Account, init: Option<nat>)
    requires Leaves(a, b, Candidate(init, None)) && c == b.(issued := b.issued + 1)
    ensures Leaves(a, c, Candidate(init, Some(b.issued)))
  {
    forall p: nat ensures c.Fate(p) + Holds(Candidate(init, Some(b.issued)), p) == a.Fate(p) + New(a.issued, c.issued, p) {
      assert b.Fate(p) + Holds(Candidate(init, None), p) == a.Fate(p) + New(a.issued, b.issued, p);
    }
  }

  lemma NothingLeft(a: Account)
    ensures Leaves(a, a, NOTHING)
  {
  }

  // What the world answers --------------------------------------------------------------------

  /** One fetch of a manifest body; a failed one may come with the bytes it got. */
  datatype Fetched = Fetched(download: Option<Failure>, whole: bool)

  datatype Manifest = Manifest(first: Fetched, master: bool, selectable: bool, second: Fetched, readable: bool)

  /** What the candidate's initialisation section needs. */
  datatype InitNeed = NoInit | InitArchived | InitFetch(valid: bool, download: Option<Failure>, sound: bool)

  datatype Objects = Objects(ordinalFree: bool, init: InitNeed, media: Option<Failure>, sound: bool)

  /** One turn of the probe: its manifest, whether a candidate is found and what staging
      it meets, and whether a failure asks for a refresh and the refresh succeeds. */
  datatype Attempt = Attempt(
    manifest: Manifest, found: bool, endList: bool, valid: bool, objects: Objects, refreshable: bool, refreshes: bool)

  datatype Prepared = Prepared(candidate: Candidate, active: bool, target: nat, snapshot: nat, root: nat)

  datatype Reply = Ready | Refused | Unavailable

  class Target {
    const ingest: Ingest
    var prepared: Option<Prepared>
    var closed: bool
    var occupied: bool

    constructor (ingest: Ingest)
      ensures this.ingest == ingest && prepared == None && !closed && !occupied
    {
      this.ingest, prepared, closed, occupied := ingest, None, false, false;
    }

    /** The payloads that the target stores for later. */
    function Stored(): Option<Candidate>
      reads this
    {
      if prepared == None then None else Some(prepared.value.candidate)
    }

    /** releaseHandoverContinuation */
    method ReleaseContinuation(candidate: Candidate)
      modifies ingest
      ensures Settles(old(ingest.Now()), ingest.Now(), candidate) && ingest.issued == old(ingest.issued)
    {
      ghost var before := ingest.Now();
      NothingSettled(before);
      if candidate.init.Some? {
        ingest.Release(candidate.init.value);
        OneSettled(before, ingest.Now(), candidate.init.value);
      }
      ghost var middle := ingest.Now();
      NothingSettled(middle);
      if candidate.media.Some? {
        ingest.Release(candidate.media.value);
        OneSettled(middle, ingest.Now(), candidate.media.value);
      }
      BothSettled(before, middle, ingest.Now(), Candidate(candidate.init, None), Candidate(None, candidate.media), candidate);
    }

    /** fetchManifestBuffered with its caller's release of a failed fetch. */
    method FetchBody(fetched: Fetched) returns (payload: Option<nat>)
      modifies ingest
      ensures Leaves(old(ingest.Now()), ingest.Now(), Candidate(payload, None))
    {
      ghost var before := ingest.Now();
      NothingLeft(before);
      payload := ingest.Download(fetched.download);
      if payload.Some? {
        OneDownloaded(before, ingest.Now());
        if !fetched.whole {
          ghost var middle := ingest.Now();
          ingest.Release(payload.value);
          OneSettled(middle, ingest.Now(), payload.value);
          LeftThenSettled(before, middle, ingest.Now(), Candidate(payload, None));
          return None;
        }
      }
    }

    /** Reading a body and releasing it. */
    method ReleaseBody(payload: nat, ghost before: Account)
      requires Leaves(before, ingest.Now(), Candidate(Some(payload), None))
      modifies ingest
      ensures Settles(before, ingest.Now(), NOTHING)
    {
      ghost var middle := ingest.Now();
      ingest.Release(payload);
      OneSettled(middle, ingest.Now(), payload);
      LeftThenSettled(before, middle, ingest.Now(), Candidate(Some(payload), None));
    }

    /** fetchHandoverPlaylist: the manifest, and the variant if it is a master playlist. */
    method FetchPlaylist(manifest: Manifest) returns (ok: bool)
      modifies ingest
      ensures Settles(old(ingest.Now()), ingest.Now(), NOTHING)
    {
      ghost var before := ingest.Now();
      var payload := FetchBody(manifest.first);
      if payload == None { return false; }
      if manifest.master {
        ReleaseBody(payload.value, before);
        if !manifest.selectable { return false; }
        ghost var middle := ingest.Now();
        payload := FetchBody(manifest.second);
        SettledThenLeft(before, middle, ingest.Now(), Candidate(payload, None));
        if payload == None { return false; }
      }
      ReleaseBody(payload.value, before);
      return manifest.readable;
    }

    /** stageHandoverCandidate: what it has downloaded when it fails stays with the
        candidate that it returns, but media bytes that do not match are released here. */
    method StageCandidate(objects: Objects) returns (candidate: Option<Candidate>, ok: bool)
      modifies ingest
      ensures Leaves(old(ingest.Now()), ingest.Now(), candidate.GetOr(NOTHING))
      ensures ok ==> candidate.Some? && candidate.value.media.Some?
    {
      ghost var before := ingest.Now();
      NothingLeft(before);
      if !objects.ordinalFree { return None, false; }
      var init: Option<nat> := None;
      if objects.init.InitFetch? {
        if !objects.init.valid { return Some(NOTHING), false; }
        init := ingest.Download(objects.init.download);
        if init == None { return Some(NOTHING), false; }
        OneDownloaded(before, ingest.Now());
        if !objects.init.sound { return Some(Candidate(init, None)), false; }
      }
      ghost var middle := ingest.Now();
      var media := ingest.Download(objects.media);
      if media == None { return Some(Candidate(init, None)), false; }
      OneMoreDownloaded(before, middle, ingest.Now(), init);
      if !objects.sound {
        ReleaseMismatch(media.value, init, before, middle);
        return Some(Candidate(init, None)), false;
      }
      return Some(Candidate(init, media)), true;
    }

    method ReleaseMismatch(media: nat, init: Option<nat>, ghost before: Account, ghost middle: Account)
      requires Leaves(before, middle, Candidate(init, None)) && ingest.Now() == middle.(issued := middle.issued + 1) && media == middle.issued
      modifies ingest
      ensures Leaves(before, ingest.Now(), Candidate(init, None))
    {
      ingest.Release(media);
      ghost var after := ingest.Now();
      forall p: nat ensures after.Fate(p) + Holds(Candidate(init, None), p) == before.Fate(p) + New(before.issued, after.issued, p) {
        assert middle.Fate(p) + Holds(Candidate(init, None), p) == before.Fate(p) + New(before.issued, middle.issued, p);
      }
    }

    /** probeHandoverContinuation: turns of fetching a playlist, finding the candidate and
        staging it, with at most one refresh, until one succeeds or the time is up. */
    method Probe(due: bool, refreshes: bool, drained: bool, attempts: seq<Attempt>) returns (candidate: Option<Candidate>)
      modifies ingest
      ensures Leaves(old(ingest.Now()), ingest.Now(), candidate.GetOr(NOTHING))
      ensures candidate.Some? ==> candidate.value.media.Some?
    {
      ghost var before := ingest.Now();
      NothingLeft(before);
      NothingSettled(before);
      var refreshed := false;
      if due {
        if !drained || !refreshes { return None; }
        refreshed := true;
      }
      for i := 0 to |attempts|
        invariant Settles(before, ingest.Now(), NOTHING)
      {
        ghost var start := ingest.Now();
        var turn;
        turn, candidate := ProbeOnce(attempts[i], drained, refreshed);
        SettledThenLeft(before, start, ingest.Now(), candidate.GetOr(NOTHING));
        match turn
        case Again(now) => refreshed := now;
        case Over => return candidate;
      }
      return None;
    }

    /** One turn of the probe. */
    method ProbeOnce(attempt: Attempt, drained: bool, refreshed: bool) returns (turn: Turn, candidate: Option<Candidate>)
      modifies ingest
      ensures Leaves(old(ingest.Now()), ingest.Now(), candidate.GetOr(NOTHING))
      ensures turn.Again? ==> candidate == None
      ensures candidate.Some? ==> candidate.value.media.Some?
    {
      ghost var before := ingest.Now();
      var fetched := FetchPlaylist(attempt.manifest);
      candidate := None;
      if !fetched { return AfterFailure(attempt, drained, refreshed), None; }
      if !attempt.found { return if attempt.endList || !drained then Over else Again(refreshed), None; }
      if !attempt.valid { return Over, None; }
      ghost var start := ingest.Now();
      var staged;
      candidate, staged := StageCandidate(attempt.objects);
      SettledThenLeft(before, start, ingest.Now(), candidate.GetOr(NOTHING));
      if staged { return Over, candidate; }
      if candidate.Some? {
        ghost var middle := ingest.Now();
        ReleaseContinuation(candidate.value);
        LeftThenSettled(before, middle, ingest.Now(), candidate.value);
      }
      return AfterFailure(attempt, drained, refreshed), None;
    }

    /** discardPreparedHandoverLocked */
    method Discard()
      modifies this`prepared, ingest
      ensures prepared == None && Keeps(old(ingest.Now()), old(Stored()), ingest.Now(), None)
    {
      var existing := prepared;
      prepared := None;
      if existing.Some? { ReleaseContinuation(existing.value.candidate); }
    }

    /** The end of PrepareHandoverTargetWithSourceState, after a successful probe: the
        candidate is stored if the root is still the one it was proved against and nothing
        is in its way; otherwise it is released. */
    method Store(next: Prepared, sameRoot: bool) returns (ok: bool)
      modifies this`prepared, ingest
      ensures ok <==>
        (&& sameRoot && !closed && !occupied
         && (old(prepared) == None || (!old(prepared).value.active && old(prepared).value.target == next.target)))
      ensures prepared == if ok then Some(next) else old(prepared)
      ensures if !ok then Settles(old(ingest.Now()), ingest.Now(), next.candidate)
              else if old(prepared) == None then ingest.Now() == old(ingest.Now())
              else Settles(old(ingest.Now()), ingest.Now(), old(prepared).value.candidate)
    {
      if !sameRoot || closed || occupied {
        ReleaseContinuation(next.candidate);
        return false;
      }
      if prepared.Some? {
        var existing := prepared.value;
        if existing.active || existing.target != next.target {
          ReleaseContinuation(next.candidate);
          return false;
        }
        ReleaseContinuation(existing.candidate);
      }
      prepared := Some(next);
      return true;
    }

    /** PrepareHandoverTargetWithSourceState. The handover lock is held throughout, so only
        the Manager's closing and a start of the recording can come in between. */
    method Prepare(target: nat, snapshot: nat, root: Option<nat>, due: bool, refreshes: bool, drained: bool, attempts: seq<Attempt>,
                   sameRoot: bool, closes: bool, starts: bool) returns (reply: Reply)
      modifies this, ingest
      ensures Keeps(old(ingest.Now()), old(Stored()), ingest.Now(), Stored())
      ensures reply == Refused && old(prepared).Some? && (old(prepared).value.active || old(prepared).value.target != target)
        ==> prepared == old(prepared)
      ensures reply == Ready
        ==> prepared.Some? && prepared.value.target == target && prepared.value.snapshot == snapshot && root == Some(prepared.value.root)
      ensures old(prepared).Some? && old(prepared).value.active ==> prepared == old(prepared)
    {
      ghost var before, stored := ingest.Now(), Stored();
      NothingKept(before, stored);
      if closed || occupied { return Refused; }
      var existing := prepared;
      if existing.Some? && (existing.value.active || existing.value.target != target) { return Refused; }
      if root == None {
        if existing.Some? { Discard(); }
        return Unavailable;
      }
      if existing.Some? {
        if existing.value.snapshot == snapshot && existing.value.root == root.value { return Ready; }
        Discard();
      }
      ghost var discarded := ingest.Now();
      var candidate := Probe(due, refreshes, drained, attempts);
      ghost var probed := ingest.Now();
      LeftIsKept(before, stored, discarded, probed, candidate.GetOr(NOTHING));
      closed, occupied := closed || closes, occupied || starts;
      if candidate == None { return Unavailable; }
      var ok := Store(Prepared(candidate.value, false, target, snapshot, root.value), sameRoot);
      if !ok { LeftThenSettled(discarded, probed, ingest.Now(), candidate.value); LeftIsKept(before, stored, discarded, ingest.Now(), NOTHING); }
      return if ok then Ready else Unavailable;
    }
  }

  /** How a turn of the probe ends: it is tried again, possibly refreshed now, or over. */
  datatype Turn = Again(refreshed: bool) | Over

  /** A failed turn is repeated once, after a refresh of a drained source. */
  function AfterFailure(attempt: Attempt, drained: bool, refreshed: bool): Turn {
    if !refreshed && attempt.refreshable && drained && attempt.refreshes then Again(true) else Over
  }

  lemma NothingKept(a: Account, c: Option<Candidate>)
    ensures Keeps(a, c, a, c)
  {
  }

  lemma LeftIsKept(a: Account, c: Option<Candidate>, b: Account, d: Account, x: Candidate)
    requires Keeps(a, c, b, None) && (Leaves(b, d, x) || (x == NOTHING && Settles(b, d, NOTHING)))
    ensures Keeps(a, c, d, Some(x)) && (x == NOTHING ==> Keeps(a, c, d, None))
  {
    forall p: nat ensures d.Fate(p) + Holds(x, p) == a.Fate(p) + HoldsAny(c, p) + New(a.issued, d.issued, p) {
      assert b.Fate(p) + HoldsAny(None, p) == a.Fate(p) + HoldsAny(c, p) + New(a.issued, b.issued, p);
      assert Leaves(b, d, x) ==> d.Fate(p) + Holds(x, p) == b.Fate(p) + New(b.issued, d.issued, p);
      assert Settles(b, d, NOTHING) ==> d.Fate(p) == b.Fate(p) + Holds(NOTHING, p) + New(b.issued, d.issued, p);
    }
  }
}
