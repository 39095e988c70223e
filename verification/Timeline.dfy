/** The preview timeline cache: a recording's segment start times, kept as a
    prefix and extended, against the full recomputation. Times are exact numbers. */
module Timeline {
  const CAPACITY: nat := 16

  /** The largest representable total. */
  const MAX_TOTAL: real := 1000000000000000000.0

  /** A recording ID; IDs are compared by their place in string order. */
  datatype Id = Id(place: int)

  datatype Segment = Segment(ordinal: nat, hash: nat, duration: real)

  predicate Counts(total: real, s: Segment) { s.duration > 0.0 && total <= MAX_TOTAL - s.duration }

  function Advance(total: real, s: Segment): real { if Counts(total, s) then total + s.duration else total }

  /** Elapsed time before the segment after these. */
  function Total(segments: seq<Segment>): real {
    if segments == [] then 0.0 else Advance(Total(segments[..|segments| - 1]), segments[|segments| - 1])
  }

  /** The start of every segment, from scratch. */
  function Starts(segments: seq<Segment>): (r: seq<real>)
    ensures |r| == |segments|
  {
    seq(|segments|, i requires 0 <= i < |segments| => Total(segments[..i]))
  }

  /** The first segment starts at 0, and each one where its predecessor ends; a duration that is
      not positive, or would exceed the bound, does not count. */
  lemma {:induction false} StartsMean(segments: seq<Segment>, i: nat)
    requires i < |segments|
    ensures var starts := Starts(segments);
      && (i == 0 ==> starts[i] == 0.0)
      && (i > 0 ==> var d := segments[i - 1].duration;
            starts[i] == starts[i - 1] + if d > 0.0 && starts[i - 1] + d <= MAX_TOTAL then d else 0.0)
      && 0.0 <= starts[i] <= MAX_TOTAL
  {
    assert i > 0 ==> segments[..i][..i - 1] == segments[..i - 1];
    if i > 0 { StartsMean(segments, i - 1); }
  }

  /** segmentStarts: the start of each segment, by ordinal. */
  method SegmentStarts(segments: seq<Segment>) returns (starts: map<nat, real>)
    ensures forall o :: o in starts <==> o != 0 && exists i | 0 <= i < |segments| :: segments[i].ordinal == o
    ensures Canonical(segments) ==> forall i | 0 <= i < |segments| :: starts[segments[i].ordinal] == Starts(segments)[i]
  {
    starts := map[];
    var elapsed := 0.0;
    for i := 0 to |segments|
      invariant elapsed == Total(segments[..i])
      invariant forall o :: o in starts <==> o != 0 && exists j | 0 <= j < i :: segments[j].ordinal == o
      invariant Canonical(segments) ==> forall j | 0 <= j < i :: starts[segments[j].ordinal] == Starts(segments)[j]
    {
      var segment := segments[i];
      assert segments[..i + 1][..i] == segments[..i];
      if segment.ordinal != 0 { starts := starts[segment.ordinal := elapsed]; }
      if segment.duration > 0.0 && elapsed <= MAX_TOTAL - segment.duration { elapsed := elapsed + segment.duration; }
    }
  }

  /** Storage order: distinct nonzero ordinals, ascending. */
  predicate Canonical(segments: seq<Segment>) {
    && (forall i | 0 <= i < |segments| :: segments[i].ordinal != 0)
    && (forall i, j | 0 <= i < j < |segments| :: segments[i].ordinal < segments[j].ordinal)
  }

  /** Archived segments stay as they are; new ones may come anywhere. */
  predicate Grown(before: seq<Segment>, after: seq<Segment>) {
    forall s | s in before :: s in after
  }

  datatype Cache = Cache(count: nat, starts: seq<real>, total: real, lastOrdinal: nat, lastHash: nat)

  /** The loop body of timelineStartsLocked. */
  function Append(c: Cache, s: Segment): Cache {
    Cache(c.count + 1, c.starts + [c.total], Advance(c.total, s), s.ordinal, s.hash)
  }

  /** The cache of a list. */
  function CacheOf(seen: seq<Segment>): (c: Cache)
    ensures c.count == |seen|
    ensures seen != [] ==> c.lastOrdinal == seen[|seen| - 1].ordinal && c.lastHash == seen[|seen| - 1].hash
  {
    if seen == [] then Cache(0, [], 0.0, 0, 0) else Append(CacheOf(seen[..|seen| - 1]), seen[|seen| - 1])
  }

  /** It holds exactly what the full recomputation gives. */
  lemma {:induction false} CacheHoldsStarts(seen: seq<Segment>)
    ensures CacheOf(seen).starts == Starts(seen) && CacheOf(seen).total == Total(seen)
  {
    if seen != [] {
      var init := seen[..|seen| - 1];
      CacheHoldsStarts(init);
      assert forall i | 0 <= i < |init| :: seen[..i] == init[..i];
    }
  }

  /** The test that decides whether the cache can be extended. */
  predicate LooksValid(c: Cache, segments: seq<Segment>) {
    c.count <= |segments| &&
    (c.count > 0 ==> segments[c.count - 1].ordinal == c.lastOrdinal && segments[c.count - 1].hash == c.lastHash)
  }

  /** Each element of a sorted list that was there before has at least its old rank. */
  lemma {:induction false} RankGrows(before: seq<Segment>, after: seq<Segment>, i: nat)
    requires Canonical(before) && Canonical(after) && Grown(before, after) && i < |before|
    ensures exists j | i <= j < |after| :: after[j] == before[i]
  {
    assert before[i] in after;
    var j :| 0 <= j < |after| && after[j] == before[i];
    if i > 0 {
      RankGrows(before, after, i - 1);
      var k :| i - 1 <= k < |after| && after[k] == before[i - 1];
      assert after[k].ordinal < after[j].ordinal;
      assert k < j;
    }
  }

  /** If the last cached segment is still at its place, everything before it is. */
  lemma {:induction false} PrefixStands(before: seq<Segment>, after: seq<Segment>, i: nat)
    requires Canonical(before) && Canonical(after) && Grown(before, after)
    requires i < |before| && |before| <= |after| && after[|before| - 1].ordinal == before[|before| - 1].ordinal
    ensures after[i] == before[i]
    decreases |before| - i
  {
    RankGrows(before, after, i);
    var j :| i <= j < |after| && after[j] == before[i];
    if i == |before| - 1 {
      assert j == i;
    } else {
      PrefixStands(before, after, i + 1);
      assert after[i + 1] == before[i + 1] && after[j].ordinal < after[i + 1].ordinal;
    }
  }

  /** The cheap test is enough: for histories that only grow, the last ordinal and
      hash match exactly when the cached list is a prefix of the present one. */
  lemma LastMatchMeansPrefix(seen: seq<Segment>, segments: seq<Segment>)
    requires Canonical(seen) && Canonical(segments) && Grown(seen, segments)
    ensures LooksValid(CacheOf(seen), segments) <==> seen <= segments
  {
    if LooksValid(CacheOf(seen), segments) {
      forall i | 0 <= i < |seen| ensures segments[i] == seen[i] { PrefixStands(seen, segments, i); }
    }
  }

  /** The cache is that of the list. */
  predicate InStep(c: Cache, seen: seq<Segment>) { Canonical(seen) && c == CacheOf(seen) }

  ghost predicate Consistent(timelines: map<Id, Cache>, access: map<Id, int>, seen: map<Id, seq<Segment>>) {
    && (forall id :: id in timelines <==> id in access) && (forall id :: id in timelines <==> id in seen) && |timelines| <= CAPACITY
    && (forall id | id in timelines :: InStep(timelines[id], seen[id]))
  }

  lemma Removes(m: map<Id, Cache>, id: Id)
    ensures |m - {id}| == |m| - if id in m then 1 else 0
  {
    assert (m - {id}).Keys == m.Keys - {id} && |m.Keys| == |m| && |(m - {id}).Keys| == |m - {id}|;
  }

  lemma ForgetKeeps(timelines: map<Id, Cache>, access: map<Id, int>, seen: map<Id, seq<Segment>>, id: Id)
    requires Consistent(timelines, access, seen)
    ensures Consistent(timelines - {id}, access - {id}, seen - {id})
  {
    Removes(timelines, id);
  }

  lemma StoreKeeps(timelines: map<Id, Cache>, access: map<Id, int>, seen: map<Id, seq<Segment>>, id: Id, c: Cache, segments: seq<Segment>, stamp: int)
    requires Consistent(timelines, access, seen) && (id in timelines || |timelines| < CAPACITY)
    requires Canonical(segments) && c == CacheOf(segments)
    ensures Consistent(timelines[id := c], access[id := stamp], seen[id := segments])
  {
    Inserts(timelines, id, c);
  }

  /** The recording that was asked for longest ago. */
  ghost predicate LeastUsed(access: map<Id, int>, victim: Id) {
    victim in access && forall id | id in access :: access[victim] <= access[id]
  }

  /** All recordings are kept, or all but the least recently used one of a full cache. */
  ghost predicate SpacedFor(timelines: map<Id, Cache>, access: map<Id, int>, before: map<Id, seq<Segment>>, after: map<Id, seq<Segment>>) {
    if |timelines| < 16 then after == before else exists victim :: LeastUsed(access, victim) && after == before - {victim}
  }

  class TimelineService {
    var timelines: map<Id, Cache>
    var access: map<Id, int>
    var clock: int
    /** The list each cached timeline was last asked for. */
    ghost var seen: map<Id, seq<Segment>>

    ghost predicate Valid()
      reads this
    {
      Consistent(timelines, access, seen)
    }

    constructor ()
      ensures Valid() && timelines == map[]
    {
      timelines, access, clock, seen := map[], map[], 0, map[];
    }

    /** The recording that was asked for longest ago. */
    static method LeastRecent(access: map<Id, int>) returns (victim: Id)
      requires access != map[]
      ensures victim in access && forall id | id in access :: access[victim] <= access[id]
    {
      var rest := access.Keys;
      victim :| victim in rest;
      rest := rest - {victim};
      while rest != {}
        invariant rest <= access.Keys && victim in access
        invariant forall id | id in access && id !in rest :: access[victim] <= access[id]
        decreases |rest|
      {
        var id :| id in rest;
        if access[id] < access[victim] || (access[id] == access[victim] && id.place < victim.place) { victim := id; }
        rest := rest - {id};
      }
    }

    /** The recording is deleted. */
    method Forget(id: Id)
      requires Valid()
      modifies this
      ensures Valid() && clock == old(clock)
      ensures timelines == old(timelines) - {id} && access == old(access) - {id} && seen == old(seen) - {id}
    {
      ForgetKeeps(timelines, access, seen, id);
      timelines := timelines - {id};
      access := access - {id};
      seen := seen - {id};
    }

    /** evictTimelineLocked: the least recently used recording goes. */
    method Evict() returns (victim: Id)
      requires Valid() && access != map[]
      modifies this
      ensures Valid() && clock == old(clock)
      ensures victim in old(access) && forall id | id in old(access) :: old(access)[victim] <= old(access)[id]
      ensures timelines == old(timelines) - {victim} && access == old(access) - {victim} && seen == old(seen) - {victim}
    {
      victim := LeastRecent(access);
      Forget(victim);
    }

    /** Bring a cache up to the present list. */
    static method Extend(cache: Cache, segments: seq<Segment>) returns (c: Cache)
      requires cache.count <= |segments| && cache == CacheOf(segments[..cache.count])
      ensures c == CacheOf(segments)
    {
      c := cache;
      for i := cache.count to |segments|
        invariant c == CacheOf(segments[..i])
      {
        var segment := segments[i];
        assert segments[..i + 1][..i] == segments[..i];
        var total := c.total;
        if segment.duration > 0.0 && c.total <= MAX_TOTAL - segment.duration { total := total + segment.duration; }
        c := Cache(i + 1, c.starts + [c.total], total, segment.ordinal, segment.hash);
      }
      assert segments[..|segments|] == segments;
    }

    /** Keep the cache if its last segment is still in place, start over otherwise,
        and bring it up to the present list. */
    static method Update(cached: bool, old_: Cache, segments: seq<Segment>, ghost before: seq<Segment>) returns (cache: Cache)
      requires Canonical(segments) && (cached ==> InStep(old_, before) && Grown(before, segments))
      ensures cache == CacheOf(segments)
    {
      cache := old_;
      var validPrefix := cached && cache.count <= |segments|;
      if validPrefix && cache.count > 0 {
        var last := segments[cache.count - 1];
        validPrefix := last.ordinal == cache.lastOrdinal && last.hash == cache.lastHash;
      }
      if validPrefix {
        LastMatchMeansPrefix(before, segments);
        assert segments[..cache.count] == before;
      } else {
        cache := Cache(0, [], 0.0, 0, 0);
      }
      cache := Extend(cache, segments);
    }

    /** A full cache gives up one recording. */
    method MakeRoom(ghost id: Id)
      requires Valid() && id !in timelines
      modifies this
      ensures Valid() && clock == old(clock) && |timelines| < CAPACITY && id !in timelines
      ensures SpacedFor(old(timelines), old(access), old(seen), seen)
    {
      if |timelines| >= CAPACITY {
        ghost var full := timelines;
        NonEmpty(timelines, access, seen);
        var victim := Evict();
        Removes(full, victim);
        assert LeastUsed(old(access), victim);
      }
    }

    method Store(id: Id, cache: Cache, ghost segments: seq<Segment>)
      requires Valid() && (id in timelines || |timelines| < CAPACITY) && Canonical(segments) && cache == CacheOf(segments)
      modifies this
      ensures Valid() && seen == old(seen)[id := segments]
    {
      StoreKeeps(timelines, access, seen, id, cache, segments, clock + 1);
      clock := clock + 1;
      access := access[id := clock];
      timelines := timelines[id := cache];
      seen := seen[id := segments];
    }

    /** timelineStartsLocked: always the full recomputation, at most 16 recordings kept. */
    method TimelineStarts(id: Id, segments: seq<Segment>) returns (starts: seq<real>)
      requires Valid() && Canonical(segments) && (id in seen ==> Grown(seen[id], segments))
      modifies this
      ensures Valid() && starts == Starts(segments)
      ensures if id in old(timelines) then seen == old(seen)[id := segments]
              else exists kept :: SpacedFor(old(timelines), old(access), old(seen), kept) && seen == kept[id := segments]
      ensures |timelines| <= 16 && forall k :: k in timelines <==> k in seen
    {
      var cached := id in timelines;
      Cached(timelines, access, seen, id);
      var cache := Update(cached, if cached then timelines[id] else Cache(0, [], 0.0, 0, 0), segments, if cached then seen[id] else []);
      if !cached { MakeRoom(id); }
      Store(id, cache, segments);
      CacheHoldsStarts(segments);
      return cache.starts;
    }
  }

  lemma Cached(timelines: map<Id, Cache>, access: map<Id, int>, seen: map<Id, seq<Segment>>, id: Id)
    requires Consistent(timelines, access, seen)
    ensures id in timelines ==> id in seen && InStep(timelines[id], seen[id])
  {
  }

  lemma NonEmpty(timelines: map<Id, Cache>, access: map<Id, int>, seen: map<Id, seq<Segment>>)
    requires Consistent(timelines, access, seen) && |timelines| > 0
    ensures access != map[] && forall id | id in access :: id in timelines
  {
    assert timelines.Keys != {};
    var id :| id in timelines.Keys;
    assert id in access;
  }

  lemma Inserts(m: map<Id, Cache>, id: Id, c: Cache)
    ensures |m[id := c]| == |m| + if id in m then 0 else 1
  {
    if id in m { assert m[id := c].Keys == m.Keys; }
  }
}
