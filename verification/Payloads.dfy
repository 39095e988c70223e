/** Downloaded payloads and who owns them: the worker's `acquire` and the init
    acquisition it calls, over an ingest service that takes ownership of what it
    accepts. A payload that is released twice, or by nobody, shows in the accounts. */
module Payloads {
  import opened Archive

  /** The payloads of one task; an init may already be archived. */
  datatype Candidate = Candidate(init: Option<nat>, media: Option<nat>)

  const NOTHING: Candidate := Candidate(None, None)

  function Is(payload: Option<nat>, p: nat): nat { if payload == Some(p) then 1 else 0 }

  function Holds(c: Candidate, p: nat): nat { Is(c.init, p) + Is(c.media, p) }

  /** Downloaded while the counter of downloads went from one value to another. */
  function New(from: nat, to: nat, p: nat): nat { if from <= p < to then 1 else 0 }

  /** What became of all payloads so far: how many were downloaded, and which of them
      were released or handed over, as often as they were. */
  datatype Account = Account(issued: nat, released: multiset<nat>, handed: multiset<nat>) {
    function Fate(p: nat): nat { released[p] + handed[p] }
  }

  /** From one account to the next, the payloads of `c` and all that were downloaded were
      released or handed over exactly once, and no other payload was touched. */
  ghost predicate Settles(before: Account, after: Account, c: Candidate) {
    && before.issued <= after.issued
    && forall p: nat :: after.Fate(p) == before.Fate(p) + Holds(c, p) + New(before.issued, after.issued, p)
  }

  lemma NothingSettled(a: Account)
    ensures Settles(a, a, NOTHING)
  {
  }

  lemma OneSettled(a: Account, b: Account, payload: nat)
    requires b == a.(released := a.released + multiset{payload}) || b == a.(handed := a.handed + multiset{payload})
    ensures Settles(a, b, Candidate(Some(payload), None)) && Settles(a, b, Candidate(None, Some(payload)))
  {
  }

  lemma DownloadSettled(a: Account, b: Account)
    requires b.issued == a.issued + 1
    requires (b.released == a.released + multiset{a.issued} && b.handed == a.handed) || (b.released == a.released && b.handed == a.handed + multiset{a.issued})
    ensures Settles(a, b, NOTHING)
  {
  }

  /** Settling one after the other. */
  lemma BothSettled(a: Account, b: Account, c: Account, x: Candidate, y: Candidate, z: Candidate)
    requires Settles(a, b, x) && Settles(b, c, y) && forall p: nat :: Holds(z, p) == Holds(x, p) + Holds(y, p)
    ensures Settles(a, c, z)
  {
    forall p: nat ensures c.Fate(p) == a.Fate(p) + Holds(z, p) + New(a.issued, c.issued, p) {
      assert b.Fate(p) == a.Fate(p) + Holds(x, p) + New(a.issued, b.issued, p);
    }
  }

  datatype Failure = Canceled | IngestClosed | StaleSource | FetchFailed | QueueFailed

  /** Payload reservations, as the ingest service and the downloader see them. */
  class Ingest {
    var issued: nat
    var released: multiset<nat>
    var handed: multiset<nat>

    constructor ()
      ensures issued == 0 && released == multiset{} && handed == multiset{}
    {
      issued, released, handed := 0, multiset{}, multiset{};
    }

    ghost function Now(): Account
      reads this
    {
      Account(issued, released, handed)
    }

    /** A new payload, or a failed download. */
    method Download(failure: Option<Failure>) returns (payload: Option<nat>)
      modifies this
      ensures released == old(released) && handed == old(handed)
      ensures payload == if failure == None then Some(old(issued)) else None
      ensures issued == if failure == None then old(issued) + 1 else old(issued)
    {
      if failure != None { return None; }
      payload := Some(issued);
      issued := issued + 1;
    }

    method Release(payload: nat)
      modifies this
      ensures released == old(released) + multiset{payload} && handed == old(handed) && issued == old(issued)
    {
      released := released + multiset{payload};
    }

    /** An accepted payload belongs to the service; a refused one stays with the caller. */
    method Submit(payload: nat, refusal: Option<Failure>)
      modifies this
      ensures handed == if refusal == None then old(handed) + multiset{payload} else old(handed)
      ensures released == old(released) && issued == old(issued)
    {
      if refusal == None { handed := handed + multiset{payload}; }
    }
  }

  /** How waiting for another worker's init ends. */
  datatype FlightEnd = ContextDone | NotQueued(failure: Failure) | Queued

  /** How the world answers one acquisition: a flight that is waited for, a download, an admission. */
  datatype World = World(flight: FlightEnd, download: Option<Failure>, refusal: Option<Failure>)

  datatype InitResult = InitReady(awaited: bool) | InitFailed(failure: Failure)

  datatype Outcome = PersistQueued | Removed | AwaitsManifest | NotFetched(failure: Failure) | Stopped | StorageFailed

  class Task {
    var staged: Candidate
    const preloaded: bool

    constructor (staged: Candidate, preloaded: bool)
      ensures this.staged == staged && this.preloaded == preloaded
    {
      this.staged, this.preloaded := staged, preloaded;
    }
  }

  /** The scheduler's table of inits on their way, beside those in the root. */
  class Acquirer {
    const ingest: Ingest
    var archived: set<string>
    var flights: set<string>

    constructor (ingest: Ingest, archived: set<string>)
      ensures this.ingest == ingest && this.archived == archived && flights == {}
    {
      this.ingest, this.archived, flights := ingest, archived, {};
    }

    /** The callback of an init's ingest job: its flight ends, and if it was saved the root
        shows it. */
    method Land(id: string, saved: bool)
      modifies this`archived, this`flights
      ensures flights == old(flights) - {id}
      ensures archived == if saved then old(archived) + {id} else old(archived)
    {
      if saved { archived := archived + {id}; }
      flights := flights - {id};
    }

    /** acquireInitUsingPayload, from its look at the flight table on; `root` is what the
        recording's root showed when it was read before. A staged payload and a downloaded
        one are consumed on every path, once: released if the root showed the init, if it
        is on its way, or if it is refused, and handed over otherwise. A failure leaves no
        flight behind. */
    method AcquireInit(id: string, root: set<string>, staged: Option<nat>, world: World) returns (result: InitResult)
      modifies this`flights, ingest
      ensures Settles(old(ingest.Now()), ingest.Now(), Candidate(staged, None))
      ensures result == InitReady(false) <==> id in root
      ensures ingest.issued == old(ingest.issued) +
        (if id !in root && id !in old(flights) && staged == None && world.download == None then 1 else 0)
      ensures var sent := id !in root && id !in old(flights) && (staged.Some? || world.download == None) && world.refusal == None;
        && (sent ==> result == InitReady(true))
        && flights == (if sent then old(flights) + {id} else old(flights))
        && ingest.handed == (if sent then old(ingest.handed) + multiset{staged.GetOr(old(ingest.issued))} else old(ingest.handed))
    {
      ghost var before := ingest.Now();
      NothingSettled(before);
      if id in root {
        if staged.Some? { ingest.Release(staged.value); OneSettled(before, ingest.Now(), staged.value); }
        return InitReady(false);
      }
      if id in flights {
        if staged.Some? { ingest.Release(staged.value); OneSettled(before, ingest.Now(), staged.value); }
        match world.flight
        case ContextDone => return InitFailed(Canceled);
        case NotQueued(failure) => return InitFailed(failure);
        case Queued => return InitReady(true);
      }
      flights := flights + {id};
      var payload := staged;
      if payload == None {
        payload := ingest.Download(world.download);
        if payload == None {
          flights := flights - {id};
          return InitFailed(world.download.value);
        }
      }
      ingest.Submit(payload.value, world.refusal);
      if world.refusal.Some? {
        ingest.Release(payload.value);
        flights := flights - {id};
        result := InitFailed(world.refusal.value);
      } else {
        result := InitReady(true);
      }
      if staged.Some? { OneSettled(before, ingest.Now(), staged.value); } else { DownloadSettled(before, ingest.Now()); }
    }

    /** The media half of acquire: the staged bytes of a preloaded task, or downloaded
        ones, are submitted, and released if they are refused. */
    method AcquireMedia(staged: Option<nat>, world: World) returns (outcome: Outcome)
      modifies ingest
      ensures Settles(old(ingest.Now()), ingest.Now(), Candidate(None, staged))
      ensures ingest.handed ==
        (if outcome == PersistQueued then old(ingest.handed) + multiset{staged.GetOr(old(ingest.issued))} else old(ingest.handed))
    {
      ghost var before := ingest.Now();
      NothingSettled(before);
      var payload := staged;
      if payload == None {
        payload := ingest.Download(world.download);
        if payload == None {
          return if world.download.value == StaleSource then AwaitsManifest else NotFetched(world.download.value);
        }
      }
      ingest.Submit(payload.value, world.refusal);
      if world.refusal.Some? {
        ingest.Release(payload.value);
        outcome := if world.refusal.value == IngestClosed then Removed else if world.refusal.value == Canceled then Stopped else StorageFailed;
      } else {
        outcome := PersistQueued;
      }
      if staged.Some? { OneSettled(before, ingest.Now(), staged.value); } else { DownloadSettled(before, ingest.Now()); }
    }

    /** The deferred release of what acquire did not get to. */
    method ReleaseLeft(payload: Option<nat>)
      modifies ingest
      ensures Settles(old(ingest.Now()), ingest.Now(), Candidate(payload, None)) && Settles(old(ingest.Now()), ingest.Now(), Candidate(None, payload))
      ensures ingest.handed == old(ingest.handed) && ingest.issued == old(ingest.issued)
    {
      ghost var before := ingest.Now();
      NothingSettled(before);
      if payload.Some? {
        ingest.Release(payload.value);
        OneSettled(before, ingest.Now(), payload.value);
      }
    }

    /** acquire, from the critical section that takes the staged payloads off the task. A
        task whose source was replaced is turned away there and keeps them. Any other task
        gives them up: both are released or handed over, once, together with everything
        that is downloaded on the way, whatever fails. */
    method Acquire(task: Task, outdated: bool, init: Option<string>, root: set<string>, initWorld: World, world: World) returns (outcome: Outcome)
      modifies this`flights, ingest, task
      ensures task.staged == if outdated then old(task.staged) else NOTHING
      ensures Settles(old(ingest.Now()), ingest.Now(), if outdated then NOTHING else old(task.staged))
      ensures outdated ==> outcome == AwaitsManifest && ingest.Now() == old(ingest.Now()) && flights == old(flights)
      ensures outcome == PersistQueued && task.preloaded && old(task.staged).media.Some? ==> old(task.staged).media.value in ingest.handed
    {
      ghost var before := ingest.Now();
      NothingSettled(before);
      if outdated { return AwaitsManifest; }
      ghost var staged := task.staged;
      var stagedInit, stagedMedia := task.staged.init, task.staged.media;
      task.staged := NOTHING;
      var failure: Option<Outcome> := None;
      if init.Some? {
        var ready := AcquireInit(init.value, root, stagedInit, initWorld);
        stagedInit := None;
        if ready.InitFailed? {
          failure := Some(if ready.failure == IngestClosed then Removed
            else if ready.failure == StaleSource then AwaitsManifest else NotFetched(ready.failure));
        }
      }
      ghost var middle := ingest.Now();
      if failure.Some? {
        outcome := failure.value;
      } else if task.preloaded && stagedMedia.Some? {
        outcome := AcquireMedia(stagedMedia, world);
        stagedMedia := None;
      } else {
        outcome := AcquireMedia(None, world);
      }
      ghost var after := ingest.Now();
      ReleaseLeft(stagedInit);
      ghost var last := ingest.Now();
      ReleaseLeft(stagedMedia);
      AllSettled(before, middle, after, last, ingest.Now(), staged, stagedInit, stagedMedia);
    }
  }

  /** The two looks are not one: an init that lands between a worker's look at the root and
      its look at the flight table is downloaded and handed over a second time. */
  method InitHandedTwice(id: string) returns (acquirer: Acquirer)
    ensures fresh(acquirer) && fresh(acquirer.ingest)
    ensures id in acquirer.archived && acquirer.ingest.handed == multiset{0, 1}
  {
    var ingest := new Ingest();
    acquirer := new Acquirer(ingest, {});
    var root := acquirer.archived;
    var willing := World(ContextDone, None, None);
    var first := acquirer.AcquireInit(id, root, None, willing);
    acquirer.Land(id, true);
    var second := acquirer.AcquireInit(id, root, None, willing);
  }

  /** The four parts of acquire together: each half of the candidate was settled by its
      own part or by the deferred release. */
  lemma AllSettled(a: Account, b: Account, c: Account, d: Account, e: Account, staged: Candidate, leftInit: Option<nat>, leftMedia: Option<nat>)
    requires leftInit == None || leftInit == staged.init
    requires leftMedia == None || leftMedia == staged.media
    requires Settles(a, b, Candidate(if leftInit == None then staged.init else None, None))
    requires Settles(b, c, Candidate(None, if leftMedia == None then staged.media else None))
    requires Settles(c, d, Candidate(leftInit, None)) && Settles(d, e, Candidate(None, leftMedia))
    ensures Settles(a, e, staged)
  {
    var x := Candidate(if leftInit == None then staged.init else None, if leftMedia == None then staged.media else None);
    BothSettled(a, b, c, Candidate(x.init, None), Candidate(None, x.media), x);
    BothSettled(c, d, e, Candidate(leftInit, None), Candidate(None, leftMedia), Candidate(leftInit, leftMedia));
    BothSettled(a, c, e, x, Candidate(leftInit, leftMedia), staged);
  }
}
