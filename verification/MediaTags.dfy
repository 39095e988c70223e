/** What the parser's variables hold at a line, said by the tags before it: a tag holds
    until the next one of its kind, and most of them until the next URI line. */
module MediaTags {
  import opened AttributeList
  import opened PlaylistText
  import opened MediaPlaylist

  // Values that are carried from tag to tag ---------------------------------------------------

  /** Nothing ends at positions a to n - 1. */
  predicate Since(ends: nat -> bool, a: nat, n: nat) { a < n && forall b | a <= b < n :: !ends(b) }

  /** The last position before n that sets a value still in force at n. */
  predicate Last<T>(sets: nat -> Option<T>, ends: nat -> bool, a: nat, n: nat) {
    Since(ends, a, n) && sets(a).Some? && forall b | a < b < n :: sets(b).None?
  }

  /** A value that some positions set and others end. */
  predicate Carries<T(==)>(value: nat -> Option<T>, sets: nat -> Option<T>, ends: nat -> bool, n: nat) {
    && value(0) == None && (forall i: nat | i < n :: sets(i).Some? ==> !ends(i))
    && forall i: nat | i < n :: value(i + 1) == if sets(i).Some? then sets(i) else if ends(i) then None else value(i)
  }

  lemma {:induction false} LastOf<T>(sets: nat -> Option<T>, ends: nat -> bool, a: nat, n: nat) returns (last: nat)
    requires Since(ends, a, n) && sets(a).Some?
    ensures a <= last && Last(sets, ends, last, n)
    decreases n - a
  {
    if b :| a < b < n && sets(b).Some? {
      assert Since(ends, b, n);
      last := LastOf(sets, ends, b, n);
    } else {
      last := a;
    }
  }

  /** A position that neither sets nor ends anything. */
  lemma {:induction false} PassesOn<T>(sets: nat -> Option<T>, ends: nat -> bool, m: nat, a: nat)
    requires sets(m).None? && !ends(m) && a != m
    ensures Since(ends, a, m + 1) <==> Since(ends, a, m)
    ensures Last(sets, ends, a, m + 1) <==> Last(sets, ends, a, m)
  {
    assert Since(ends, a, m) ==> forall b | a <= b < m + 1 :: !ends(b);
  }

  lemma {:induction false} Carried<T>(value: nat -> Option<T>, sets: nat -> Option<T>, ends: nat -> bool, n: nat)
    requires Carries(value, sets, ends, n)
    ensures forall a: nat | Last(sets, ends, a, n) :: value(n) == sets(a)
    ensures value(n).Some? <==> exists a: nat :: Since(ends, a, n) && sets(a).Some?
  {
    if n > 0 {
      var m := n - 1;
      Carried(value, sets, ends, m);
      assert value(m + 1) == if sets(m).Some? then sets(m) else if ends(m) then None else value(m);
      if sets(m).Some? {
        assert Since(ends, m, n);
        assert forall a: nat :: Last(sets, ends, a, n) ==> a == m;
      } else if ends(m) {
        assert forall a: nat :: !Since(ends, a, n);
      } else {
        forall a: nat | a != m
          ensures (Since(ends, a, n) <==> Since(ends, a, m)) && (Last(sets, ends, a, n) <==> Last(sets, ends, a, m))
        {
          PassesOn(sets, ends, m, a);
        }
      }
    }
  }

  // The state at a line --------------------------------------------------------------------

  function TagAt(tags: seq<Tag>, n: nat): Tag { if n < |tags| then tags[n] else Ignored }

  function StateAt(env: Env, tags: seq<Tag>, n: nat): Scan {
    if n <= |tags| && Scanned(env, tags[..n]).Ok? then Scanned(env, tags[..n]).value else Fresh()
  }

  lemma {:induction false} StateSteps(env: Env, tags: seq<Tag>, n: nat)
    requires Scanned(env, tags).Ok? && n < |tags|
    ensures Apply(env, StateAt(env, tags, n), tags[n]) == Ok(StateAt(env, tags, n + 1))
    ensures StateAt(env, tags, 0) == Fresh() && Scanned(env, tags) == Ok(StateAt(env, tags, |tags|))
  {
    assert tags[..0] == [] && tags[..|tags|] == tags;
    if Scanned(env, tags[..n]).Err? { Stuck(env, tags, n); }
    if Scanned(env, tags[..n + 1]).Err? { Stuck(env, tags, n + 1); }
    OneTagMore(env, tags, n, StateAt(env, tags, n));
  }

  /** The last tag of a kind before n that is still in force at n. */
  predicate Latest(tags: seq<Tag>, kind: Tag -> bool, ends: nat -> bool, a: nat, n: nat) {
    a < |tags| && kind(tags[a]) && Since(ends, a, n) && forall b | a < b < n :: !kind(TagAt(tags, b))
  }

  /** Some tag of the kind is still in force at n. */
  predicate Any(tags: seq<Tag>, kind: Tag -> bool, ends: nat -> bool, n: nat) {
    exists a | 0 <= a < |tags| :: kind(tags[a]) && Since(ends, a, n)
  }

  /** One position: what it does to the value, and that it sets one iff it is of the kind. */
  predicate Carry<T(==)>(value: nat -> Option<T>, sets: nat -> Option<T>, tags: seq<Tag>, kind: Tag -> bool, ends: nat -> bool, i: nat) {
    && value(i + 1) == (if sets(i).Some? then sets(i) else if ends(i) then None else value(i))
    && (sets(i).Some? <==> kind(TagAt(tags, i))) && (sets(i).Some? ==> !ends(i))
  }

  lemma {:induction false} OfKind<T>(value: nat -> Option<T>, sets: nat -> Option<T>, tags: seq<Tag>, kind: Tag -> bool, ends: nat -> bool, n: nat)
    requires value(0) == None && n <= |tags| && forall i: nat | i < n :: Carry(value, sets, tags, kind, ends, i)
    ensures forall a: nat | Latest(tags, kind, ends, a, n) :: value(n) == sets(a)
    ensures value(n).Some? <==> Any(tags, kind, ends, n)
  {
    forall i: nat | i < n
      ensures value(i + 1) == if sets(i).Some? then sets(i) else if ends(i) then None else value(i)
      ensures sets(i).Some? ==> !ends(i)
    {
      assert Carry(value, sets, tags, kind, ends, i);
    }
    Carried(value, sets, ends, n);
    forall b: nat | b < n ensures sets(b).Some? <==> kind(TagAt(tags, b)) { assert Carry(value, sets, tags, kind, ends, b); }
    forall a: nat | Latest(tags, kind, ends, a, n) ensures value(n) == sets(a) { assert Last(sets, ends, a, n); }
    if a: nat :| Since(ends, a, n) && sets(a).Some? { assert kind(TagAt(tags, a)); }
  }

  lemma {:induction false} StartsFresh(env: Env, tags: seq<Tag>)
    ensures StateAt(env, tags, 0) == Fresh()
  {
    assert tags[..0] == [];
  }

  /** Positions of URI lines. */
  function UriAt(tags: seq<Tag>): nat -> bool { (k: nat) => k < |tags| && tags[k].UriLine? }

  const NOWHERE: nat -> bool := (_: nat) => false

  // Tag by tag ------------------------------------------------------------------------------

  function InitIn(env: Env, text: string): Option<Init> {
    if InitOf(env, text).Ok? then Some(InitOf(env, text).value) else None
  }

  const GAP: Tag -> bool := (t: Tag) => t.GapTag?

  function GapValue(env: Env, tags: seq<Tag>): nat -> Option<bool> { (k: nat) => if StateAt(env, tags, k).gap then Some(true) else None }

  function GapSets(env: Env, tags: seq<Tag>): nat -> Option<bool> {
    (k: nat) => if TagAt(tags, k).GapTag? then Some(true) else None
  }

  lemma {:induction false} GapStep(env: Env, s: Scan, tag: Tag, t: Scan)
    requires Apply(env, s, tag) == Ok(t)
    ensures t.gap == (tag.GapTag? || (s.gap && !tag.UriLine?))
  {
  }

  lemma {:induction false} GapStepAt(env: Env, tags: seq<Tag>, i: nat)
    requires Scanned(env, tags).Ok? && i < |tags|
    ensures Carry(GapValue(env, tags), GapSets(env, tags), tags, GAP, UriAt(tags), i)
  {
    StateSteps(env, tags, i);
    GapStep(env, StateAt(env, tags, i), tags[i], StateAt(env, tags, i + 1));
  }

  /** An EXT-X-GAP tag holds until the next URI line. */
  lemma {:induction false} GapAt(env: Env, tags: seq<Tag>, n: nat)
    requires Scanned(env, tags).Ok? && n <= |tags|
    ensures StateAt(env, tags, n).gap <==> Any(tags, GAP, UriAt(tags), n)
  {
    forall i: nat | i < n { GapStepAt(env, tags, i); }
    StartsFresh(env, tags);
    OfKind(GapValue(env, tags), GapSets(env, tags), tags, GAP, UriAt(tags), n);
  }

  const DISCONTINUITY: Tag -> bool := (t: Tag) => t.DiscontinuityTag?

  function DiscontinuityValue(env: Env, tags: seq<Tag>): nat -> Option<bool> {
    (k: nat) => if StateAt(env, tags, k).discontinuity then Some(true) else None
  }

  function DiscontinuitySets(env: Env, tags: seq<Tag>): nat -> Option<bool> {
    (k: nat) => if TagAt(tags, k).DiscontinuityTag? then Some(true) else None
  }

  lemma {:induction false} DiscontinuityStep(env: Env, s: Scan, tag: Tag, t: Scan)
    requires Apply(env, s, tag) == Ok(t)
    ensures t.discontinuity == (tag.DiscontinuityTag? || (s.discontinuity && !tag.UriLine?))
  {
  }

  lemma {:induction false} DiscontinuityStepAt(env: Env, tags: seq<Tag>, i: nat)
    requires Scanned(env, tags).Ok? && i < |tags|
    ensures Carry(DiscontinuityValue(env, tags), DiscontinuitySets(env, tags), tags, DISCONTINUITY, UriAt(tags), i)
  {
    StateSteps(env, tags, i);
    DiscontinuityStep(env, StateAt(env, tags, i), tags[i], StateAt(env, tags, i + 1));
  }

  /** So does an EXT-X-DISCONTINUITY tag. */
  lemma {:induction false} DiscontinuityAt(env: Env, tags: seq<Tag>, n: nat)
    requires Scanned(env, tags).Ok? && n <= |tags|
    ensures StateAt(env, tags, n).discontinuity <==> Any(tags, DISCONTINUITY, UriAt(tags), n)
  {
    forall i: nat | i < n { DiscontinuityStepAt(env, tags, i); }
    StartsFresh(env, tags);
    OfKind(DiscontinuityValue(env, tags), DiscontinuitySets(env, tags), tags, DISCONTINUITY, UriAt(tags), n);
  }

  const INF: Tag -> bool := (t: Tag) => t.InfTag?

  function DurationValue(env: Env, tags: seq<Tag>): nat -> Option<real> { (k: nat) => StateAt(env, tags, k).nextDuration }

  function DurationSets(env: Env, tags: seq<Tag>): nat -> Option<real> {
    (k: nat) => if TagAt(tags, k).InfTag? then DurationOf(env, TagAt(tags, k).text) else None
  }

  lemma {:induction false} DurationStep(env: Env, s: Scan, tag: Tag, t: Scan)
    requires Apply(env, s, tag) == Ok(t)
    ensures t.nextDuration == if tag.InfTag? then DurationOf(env, tag.text) else if tag.UriLine? then None else s.nextDuration
    ensures tag.InfTag? ==> t.nextDuration.Some?
  {
  }

  lemma {:induction false} DurationStepAt(env: Env, tags: seq<Tag>, i: nat)
    requires Scanned(env, tags).Ok? && i < |tags|
    ensures Carry(DurationValue(env, tags), DurationSets(env, tags), tags, INF, UriAt(tags), i)
  {
    StateSteps(env, tags, i);
    DurationStep(env, StateAt(env, tags, i), tags[i], StateAt(env, tags, i + 1));
  }

  /** So does the duration of an EXTINF tag. */
  lemma {:induction false} DurationAt(env: Env, tags: seq<Tag>, n: nat)
    requires Scanned(env, tags).Ok? && n <= |tags|
    ensures StateAt(env, tags, n).nextDuration.Some? <==> Any(tags, INF, UriAt(tags), n)
    ensures forall a: nat | Latest(tags, INF, UriAt(tags), a, n) :: StateAt(env, tags, n).nextDuration == DurationOf(env, tags[a].text)
  {
    forall i: nat | i < n { DurationStepAt(env, tags, i); }
    StartsFresh(env, tags);
    OfKind(DurationValue(env, tags), DurationSets(env, tags), tags, INF, UriAt(tags), n);
  }

  function TimeIn(env: Env, text: string): Option<int> { env.time(text) }

  const TIME: Tag -> bool := (t: Tag) => t.TimeTag?

  function TimeValue(env: Env, tags: seq<Tag>): nat -> Option<int> { (k: nat) => StateAt(env, tags, k).nextTime }

  function TimeSets(env: Env, tags: seq<Tag>): nat -> Option<int> {
    (k: nat) => if TagAt(tags, k).TimeTag? then TimeIn(env, TagAt(tags, k).text) else None
  }

  lemma {:induction false} TimeStep(env: Env, s: Scan, tag: Tag, t: Scan)
    requires Apply(env, s, tag) == Ok(t)
    ensures t.nextTime == if tag.TimeTag? then TimeIn(env, tag.text) else if tag.UriLine? then None else s.nextTime
    ensures tag.TimeTag? ==> t.nextTime.Some?
  {
  }

  lemma {:induction false} TimeStepAt(env: Env, tags: seq<Tag>, i: nat)
    requires Scanned(env, tags).Ok? && i < |tags|
    ensures Carry(TimeValue(env, tags), TimeSets(env, tags), tags, TIME, UriAt(tags), i)
  {
    StateSteps(env, tags, i);
    TimeStep(env, StateAt(env, tags, i), tags[i], StateAt(env, tags, i + 1));
  }

  /** So does a program date. */
  lemma {:induction false} TimeAt(env: Env, tags: seq<Tag>, n: nat)
    requires Scanned(env, tags).Ok? && n <= |tags|
    ensures StateAt(env, tags, n).nextTime.Some? <==> Any(tags, TIME, UriAt(tags), n)
    ensures forall a: nat | Latest(tags, TIME, UriAt(tags), a, n) :: StateAt(env, tags, n).nextTime == TimeIn(env, tags[a].text)
  {
    forall i: nat | i < n { TimeStepAt(env, tags, i); }
    StartsFresh(env, tags);
    OfKind(TimeValue(env, tags), TimeSets(env, tags), tags, TIME, UriAt(tags), n);
  }

  const RANGE: Tag -> bool := (t: Tag) => t.RangeTag?

  function RangeValue(env: Env, tags: seq<Tag>): nat -> Option<ByteRange> { (k: nat) => StateAt(env, tags, k).range }

  function RangeSets(env: Env, tags: seq<Tag>): nat -> Option<ByteRange> {
    (k: nat) => if TagAt(tags, k).RangeTag? then StateAt(env, tags, k + 1).range else None
  }

  lemma {:induction false} RangeStep(env: Env, s: Scan, tag: Tag, t: Scan)
    requires Apply(env, s, tag) == Ok(t)
    ensures if tag.RangeTag? then t.range.Some? && ('@' in tag.text ==> t.range == RangeOf(tag.text, 0))
            else t.range == if tag.UriLine? then None else s.range
  {
  }

  lemma {:induction false} RangeStepAt(env: Env, tags: seq<Tag>, i: nat)
    requires Scanned(env, tags).Ok? && i < |tags|
    ensures Carry(RangeValue(env, tags), RangeSets(env, tags), tags, RANGE, UriAt(tags), i)
  {
    StateSteps(env, tags, i);
    RangeStep(env, StateAt(env, tags, i), tags[i], StateAt(env, tags, i + 1));
  }

  /** So does a byte range. */
  lemma {:induction false} RangeAt(env: Env, tags: seq<Tag>, n: nat)
    requires Scanned(env, tags).Ok? && n <= |tags|
    ensures StateAt(env, tags, n).range.Some? <==> Any(tags, RANGE, UriAt(tags), n)
    ensures forall a: nat | Latest(tags, RANGE, UriAt(tags), a, n) && '@' in tags[a].text :: StateAt(env, tags, n).range == RangeOf(tags[a].text, 0)
  {
    forall i: nat | i < n { RangeStepAt(env, tags, i); }
    StartsFresh(env, tags);
    OfKind(RangeValue(env, tags), RangeSets(env, tags), tags, RANGE, UriAt(tags), n);
    forall a: nat | Latest(tags, RANGE, UriAt(tags), a, n) && '@' in tags[a].text
      ensures StateAt(env, tags, n).range == RangeOf(tags[a].text, 0)
    {
      StateSteps(env, tags, a);
      RangeStep(env, StateAt(env, tags, a), tags[a], StateAt(env, tags, a + 1));
    }
  }

  const MAP: Tag -> bool := (t: Tag) => t.MapTag?

  function InitValue(env: Env, tags: seq<Tag>): nat -> Option<Init> { (k: nat) => StateAt(env, tags, k).init }

  function InitSets(env: Env, tags: seq<Tag>): nat -> Option<Init> {
    (k: nat) => if TagAt(tags, k).MapTag? then InitIn(env, TagAt(tags, k).text) else None
  }

  lemma {:induction false} InitStep(env: Env, s: Scan, tag: Tag, t: Scan)
    requires Apply(env, s, tag) == Ok(t)
    ensures t.init == if tag.MapTag? then InitIn(env, tag.text) else s.init
    ensures tag.MapTag? ==> t.init.Some?
  {
  }

  lemma {:induction false} InitStepAt(env: Env, tags: seq<Tag>, i: nat)
    requires Scanned(env, tags).Ok? && i < |tags|
    ensures Carry(InitValue(env, tags), InitSets(env, tags), tags, MAP, NOWHERE, i)
  {
    StateSteps(env, tags, i);
    InitStep(env, StateAt(env, tags, i), tags[i], StateAt(env, tags, i + 1));
  }

  /** An initialisation section holds until the next one. */
  lemma {:induction false} InitAt(env: Env, tags: seq<Tag>, n: nat)
    requires Scanned(env, tags).Ok? && n <= |tags|
    ensures StateAt(env, tags, n).init.Some? <==> Any(tags, MAP, NOWHERE, n)
    ensures forall a: nat | Latest(tags, MAP, NOWHERE, a, n) :: StateAt(env, tags, n).init == InitIn(env, tags[a].text)
  {
    forall i: nat | i < n { InitStepAt(env, tags, i); }
    StartsFresh(env, tags);
    OfKind(InitValue(env, tags), InitSets(env, tags), tags, MAP, NOWHERE, n);
  }

  // The numbers of the playlist ---------------------------------------------------------------

  const SEQUENCE: Tag -> bool := (t: Tag) => t.SequenceTag?

  function SequenceValue(env: Env, tags: seq<Tag>): nat -> Option<nat> {
    (k: nat) => if StateAt(env, tags, k).haveSequence then Some(StateAt(env, tags, k).playlist.mediaSequence) else None
  }

  function SequenceSets(env: Env, tags: seq<Tag>): nat -> Option<nat> {
    (k: nat) => if TagAt(tags, k).SequenceTag? then ParseUint(TagAt(tags, k).text, MAX_UINT64) else None
  }

  lemma {:induction false} SequenceStep(env: Env, s: Scan, tag: Tag, t: Scan)
    requires Apply(env, s, tag) == Ok(t)
    ensures if tag.SequenceTag? then t.haveSequence && Some(t.playlist.mediaSequence) == ParseUint(tag.text, MAX_UINT64)
      else t.haveSequence == s.haveSequence && t.playlist.mediaSequence == s.playlist.mediaSequence
  {
  }

  lemma {:induction false} SequenceStepAt(env: Env, tags: seq<Tag>, i: nat)
    requires Scanned(env, tags).Ok? && i < |tags|
    ensures Carry(SequenceValue(env, tags), SequenceSets(env, tags), tags, SEQUENCE, NOWHERE, i)
  {
    StateSteps(env, tags, i);
    SequenceStep(env, StateAt(env, tags, i), tags[i], StateAt(env, tags, i + 1));
  }

  /** The number of an EXT-X-MEDIA-SEQUENCE tag. */
  lemma {:induction false} SequenceAt(env: Env, tags: seq<Tag>, n: nat)
    requires Scanned(env, tags).Ok? && n <= |tags|
    ensures StateAt(env, tags, n).haveSequence <==> Any(tags, SEQUENCE, NOWHERE, n)
    ensures forall a: nat | Latest(tags, SEQUENCE, NOWHERE, a, n) ::
      Some(StateAt(env, tags, n).playlist.mediaSequence) == ParseUint(tags[a].text, MAX_UINT64)
  {
    forall i: nat | i < n { SequenceStepAt(env, tags, i); }
    StartsFresh(env, tags);
    OfKind(SequenceValue(env, tags), SequenceSets(env, tags), tags, SEQUENCE, NOWHERE, n);
  }

  const BASE: Tag -> bool := (t: Tag) => t.DiscontinuitySequenceTag?

  function BaseValue(env: Env, tags: seq<Tag>): nat -> Option<nat> {
    (k: nat) => if StateAt(env, tags, k).haveDiscontinuitySequence then Some(StateAt(env, tags, k).playlist.discontinuitySequence) else None
  }

  function BaseSets(env: Env, tags: seq<Tag>): nat -> Option<nat> {
    (k: nat) => if TagAt(tags, k).DiscontinuitySequenceTag? then ParseUint(TagAt(tags, k).text, MAX_UINT64) else None
  }

  lemma {:induction false} BaseStep(env: Env, s: Scan, tag: Tag, t: Scan)
    requires Apply(env, s, tag) == Ok(t)
    ensures if tag.DiscontinuitySequenceTag? then t.haveDiscontinuitySequence && Some(t.playlist.discontinuitySequence) == ParseUint(tag.text, MAX_UINT64)
      else t.haveDiscontinuitySequence == s.haveDiscontinuitySequence && t.playlist.discontinuitySequence == s.playlist.discontinuitySequence
  {
  }

  lemma {:induction false} BaseStepAt(env: Env, tags: seq<Tag>, i: nat)
    requires Scanned(env, tags).Ok? && i < |tags|
    ensures Carry(BaseValue(env, tags), BaseSets(env, tags), tags, BASE, NOWHERE, i)
  {
    StateSteps(env, tags, i);
    BaseStep(env, StateAt(env, tags, i), tags[i], StateAt(env, tags, i + 1));
  }

  /** The number of an EXT-X-DISCONTINUITY-SEQUENCE tag. */
  lemma {:induction false} BaseAt(env: Env, tags: seq<Tag>, n: nat)
    requires Scanned(env, tags).Ok? && n <= |tags|
    ensures StateAt(env, tags, n).haveDiscontinuitySequence <==> Any(tags, BASE, NOWHERE, n)
    ensures forall a: nat | Latest(tags, BASE, NOWHERE, a, n) ::
      Some(StateAt(env, tags, n).playlist.discontinuitySequence) == ParseUint(tags[a].text, MAX_UINT64)
  {
    forall i: nat | i < n { BaseStepAt(env, tags, i); }
    StartsFresh(env, tags);
    OfKind(BaseValue(env, tags), BaseSets(env, tags), tags, BASE, NOWHERE, n);
  }

  const TARGET: Tag -> bool := (t: Tag) => t.TargetTag?

  function TargetValue(env: Env, tags: seq<Tag>): nat -> Option<nat> {
    (k: nat) => if StateAt(env, tags, k).playlist.target != 0 then Some(StateAt(env, tags, k).playlist.target) else None
  }

  function TargetSets(env: Env, tags: seq<Tag>): nat -> Option<nat> {
    (k: nat) => if TagAt(tags, k).TargetTag? then ParseUint(TagAt(tags, k).text, MAX_DURATION) else None
  }

  lemma {:induction false} TargetStep(env: Env, s: Scan, tag: Tag, t: Scan)
    requires Apply(env, s, tag) == Ok(t)
    ensures if tag.TargetTag? then t.playlist.target != 0 && Some(t.playlist.target) == ParseUint(tag.text, MAX_DURATION)
      else t.playlist.target == s.playlist.target
  {
  }

  lemma {:induction false} TargetStepAt(env: Env, tags: seq<Tag>, i: nat)
    requires Scanned(env, tags).Ok? && i < |tags|
    ensures Carry(TargetValue(env, tags), TargetSets(env, tags), tags, TARGET, NOWHERE, i)
  {
    StateSteps(env, tags, i);
    TargetStep(env, StateAt(env, tags, i), tags[i], StateAt(env, tags, i + 1));
  }

  /** The number of an EXT-X-TARGETDURATION tag. */
  lemma {:induction false} TargetAt(env: Env, tags: seq<Tag>, n: nat)
    requires Scanned(env, tags).Ok? && n <= |tags|
    ensures StateAt(env, tags, n).playlist.target != 0 <==> Any(tags, TARGET, NOWHERE, n)
    ensures forall a: nat | Latest(tags, TARGET, NOWHERE, a, n) ::
      Some(StateAt(env, tags, n).playlist.target) == ParseUint(tags[a].text, MAX_DURATION)
  {
    forall i: nat | i < n { TargetStepAt(env, tags, i); }
    StartsFresh(env, tags);
    OfKind(TargetValue(env, tags), TargetSets(env, tags), tags, TARGET, NOWHERE, n);
  }

  const END: Tag -> bool := (t: Tag) => t.EndTag?

  function EndValue(env: Env, tags: seq<Tag>): nat -> Option<bool> {
    (k: nat) => if StateAt(env, tags, k).playlist.endList then Some(true) else None
  }

  function EndSets(env: Env, tags: seq<Tag>): nat -> Option<bool> {
    (k: nat) => if TagAt(tags, k).EndTag? then Some(true) else None
  }

  lemma {:induction false} EndStep(env: Env, s: Scan, tag: Tag, t: Scan)
    requires Apply(env, s, tag) == Ok(t)
    ensures t.playlist.endList <==> s.playlist.endList || tag.EndTag?
  {
    if !tag.EndTag? && !tag.UriLine? && !tag.SequenceTag? && !tag.DiscontinuitySequenceTag? && !tag.TargetTag? {
      assert t.playlist == s.playlist;
    }
  }

  lemma {:induction false} EndStepAt(env: Env, tags: seq<Tag>, i: nat)
    requires Scanned(env, tags).Ok? && i < |tags|
    ensures Carry(EndValue(env, tags), EndSets(env, tags), tags, END, NOWHERE, i)
  {
    StateSteps(env, tags, i);
    EndStep(env, StateAt(env, tags, i), tags[i], StateAt(env, tags, i + 1));
  }

  /** An EXT-X-ENDLIST tag. */
  lemma {:induction false} EndAt(env: Env, tags: seq<Tag>, n: nat)
    requires Scanned(env, tags).Ok? && n <= |tags|
    ensures StateAt(env, tags, n).playlist.endList <==> Any(tags, END, NOWHERE, n)
  {
    forall i: nat | i < n { EndStepAt(env, tags, i); }
    StartsFresh(env, tags);
    OfKind(EndValue(env, tags), EndSets(env, tags), tags, END, NOWHERE, n);
  }

  lemma {:induction false} LowLatencyStep(env: Env, s: Scan, tag: Tag, t: Scan)
    requires Apply(env, s, tag) == Ok(t)
    ensures t.lowLatency <==> s.lowLatency || tag.LowLatencyTag?
  {
    if tag.UriLine? { assert t.lowLatency == s.lowLatency; }
    else if tag.RangeTag? { assert t.lowLatency == s.lowLatency; }
    else if tag.SequenceTag? || tag.DiscontinuitySequenceTag? || tag.TargetTag? { assert t.lowLatency == s.lowLatency; }
    else if !tag.LowLatencyTag? { assert t.lowLatency == s.lowLatency; }
  }

  /** Low-latency tags are remembered to the end. */
  lemma {:induction false} LowLatencyAt(env: Env, tags: seq<Tag>, a: nat, n: nat)
    requires Scanned(env, tags).Ok? && a < n <= |tags| && tags[a].LowLatencyTag?
    ensures StateAt(env, tags, n).lowLatency
  {
    StateSteps(env, tags, n - 1);
    LowLatencyStep(env, StateAt(env, tags, n - 1), tags[n - 1], StateAt(env, tags, n - 1 + 1));
    if a < n - 1 { LowLatencyAt(env, tags, a, n - 1); }
  }

  /** EXT-X-DISCONTINUITY tags among the first n. */
  function Marks(tags: seq<Tag>, n: nat): nat {
    if n == 0 then 0 else Marks(tags, n - 1) + if TagAt(tags, n - 1).DiscontinuityTag? then 1 else 0
  }

  /** What the variables that number the segments say before any tag gives a number. */
  predicate Numbers(s: Scan, marks: nat) {
    && (!s.haveSequence ==> s.playlist.mediaSequence == 0)
    && (!s.haveDiscontinuitySequence ==> s.playlist.discontinuitySequence == 0)
    && (s.seenDiscontinuity <==> marks > 0) && s.discontinuitySequence == s.playlist.discontinuitySequence + marks
  }

  lemma {:induction false} NumbersStep(env: Env, s: Scan, tag: Tag, t: Scan, marks: nat)
    requires Apply(env, s, tag) == Ok(t) && Numbers(s, marks)
    ensures Numbers(t, if tag.DiscontinuityTag? then marks + 1 else marks)
    ensures s.playlist.segments != [] ==>
      && t.playlist.mediaSequence == s.playlist.mediaSequence
      && t.playlist.discontinuitySequence == s.playlist.discontinuitySequence && s.playlist.segments <= t.playlist.segments
  {
  }

  lemma {:induction false} NumbersNext(env: Env, tags: seq<Tag>, n: nat)
    requires Scanned(env, tags).Ok? && n < |tags| && Numbers(StateAt(env, tags, n), Marks(tags, n))
    ensures Numbers(StateAt(env, tags, n + 1), Marks(tags, n + 1))
    ensures var s, t := StateAt(env, tags, n).playlist, StateAt(env, tags, n + 1).playlist;
      s.segments != [] ==> s.segments <= t.segments && t.discontinuitySequence == s.discontinuitySequence
  {
    StateSteps(env, tags, n);
    NumbersStep(env, StateAt(env, tags, n), tags[n], StateAt(env, tags, n + 1), Marks(tags, n));
  }

  lemma {:induction false} NumbersAt(env: Env, tags: seq<Tag>, n: nat)
    requires Scanned(env, tags).Ok? && n <= |tags|
    ensures Numbers(StateAt(env, tags, n), Marks(tags, n))
  {
    if n == 0 {
      StartsFresh(env, tags);
    } else {
      var m := n - 1;
      NumbersAt(env, tags, m);
      NumbersNext(env, tags, m);
      assert m + 1 == n;
    }
  }

  /** Once there is a segment, it stays, and so do the numbers of the playlist. */
  lemma {:induction false} NumbersStay(env: Env, tags: seq<Tag>, m: nat, n: nat)
    requires Scanned(env, tags).Ok? && m <= n <= |tags| && StateAt(env, tags, m).playlist.segments != []
    ensures StateAt(env, tags, m).playlist.segments <= StateAt(env, tags, n).playlist.segments
    ensures StateAt(env, tags, n).playlist.discontinuitySequence == StateAt(env, tags, m).playlist.discontinuitySequence
  {
    if m < n {
      var l := n - 1;
      NumbersStay(env, tags, m, l);
      NumbersAt(env, tags, l);
      NumbersNext(env, tags, l);
      assert l + 1 == n;
    }
  }

  // Segments ---------------------------------------------------------------------------------

  /** The segment that the URI line at u makes of the state before it. */
  lemma {:induction false} SegmentAt(env: Env, tags: seq<Tag>, u: nat)
    requires Scanned(env, tags).Ok? && u < |tags| && tags[u].UriLine?
    ensures var s, all, i := StateAt(env, tags, u), StateAt(env, tags, |tags|).playlist, Uris(tags[..u]);
      && i < |all.segments| && s.nextDuration.Some? && Resolve(env, tags[u].text).Some?
      && var segment := all.segments[i];
        && segment.uri == Resolve(env, tags[u].text).value && segment.duration == s.nextDuration.value && segment.time == s.nextTime
        && segment.init == s.init && segment.range == s.range && segment.discontinuity == s.discontinuity && segment.gap == s.gap
        && segment.discontinuitySequence == all.discontinuitySequence + Marks(tags, u)
  {
    StateSteps(env, tags, u);
    NumbersAt(env, tags, u);
    NumbersStay(env, tags, u + 1, |tags|);
    if Scanned(env, tags[..u]).Err? { Stuck(env, tags, u); }
    ScanKeeps(env, tags[..u]);
    assert Apply(env, StateAt(env, tags, u), tags[u]) == TakeUri(env, StateAt(env, tags, u), tags[u].text);
  }

  // Tags that must not be repeated ------------------------------------------------------------

  /** No second EXTINF or byte range before the URI line. */
  lemma {:induction false} OncePerUri(env: Env, tags: seq<Tag>, a: nat, b: nat)
    requires Scanned(env, tags).Ok? && a < b < |tags| && Since(UriAt(tags), a, b)
    ensures !(tags[a].InfTag? && tags[b].InfTag?) && !(tags[a].RangeTag? && tags[b].RangeTag?)
  {
    StateSteps(env, tags, b);
    DurationAt(env, tags, b);
    RangeAt(env, tags, b);
    if tags[a].InfTag? { assert INF(tags[a]) && Any(tags, INF, UriAt(tags), b); }
    if tags[a].RangeTag? { assert RANGE(tags[a]) && Any(tags, RANGE, UriAt(tags), b); }
  }

  /** No second tag that gives a number of the playlist. */
  lemma {:induction false} OncePerText(env: Env, tags: seq<Tag>, a: nat, b: nat)
    requires Scanned(env, tags).Ok? && a < b < |tags|
    ensures !(tags[a].SequenceTag? && tags[b].SequenceTag?) && !(tags[a].TargetTag? && tags[b].TargetTag?)
    ensures !(tags[a].DiscontinuitySequenceTag? && tags[b].DiscontinuitySequenceTag?)
  {
    assert Since(NOWHERE, a, b);
    StateSteps(env, tags, b);
    SequenceAt(env, tags, b);
    TargetAt(env, tags, b);
    BaseAt(env, tags, b);
    if tags[a].SequenceTag? { assert SEQUENCE(tags[a]) && Any(tags, SEQUENCE, NOWHERE, b); }
    if tags[a].TargetTag? { assert TARGET(tags[a]) && Any(tags, TARGET, NOWHERE, b); }
    if tags[a].DiscontinuitySequenceTag? { assert BASE(tags[a]) && Any(tags, BASE, NOWHERE, b); }
  }

  /** Hence any such tag is the last of its kind. */
  lemma {:induction false} IsLatest(env: Env, tags: seq<Tag>, a: nat, n: nat)
    requires Scanned(env, tags).Ok? && a < n <= |tags|
    ensures Since(UriAt(tags), a, n) && tags[a].InfTag? ==> Latest(tags, INF, UriAt(tags), a, n)
    ensures Since(UriAt(tags), a, n) && tags[a].RangeTag? ==> Latest(tags, RANGE, UriAt(tags), a, n)
    ensures tags[a].SequenceTag? ==> Latest(tags, SEQUENCE, NOWHERE, a, n)
    ensures tags[a].TargetTag? ==> Latest(tags, TARGET, NOWHERE, a, n)
    ensures tags[a].DiscontinuitySequenceTag? ==> Latest(tags, BASE, NOWHERE, a, n)
  {
    forall b | a < b < n
      ensures !(tags[a].SequenceTag? && SEQUENCE(TagAt(tags, b))) && !(tags[a].TargetTag? && TARGET(TagAt(tags, b)))
      ensures !(tags[a].DiscontinuitySequenceTag? && BASE(TagAt(tags, b)))
    {
      OncePerText(env, tags, a, b);
    }
    if Since(UriAt(tags), a, n) {
      forall b | a < b < n
        ensures !(tags[a].InfTag? && INF(TagAt(tags, b))) && !(tags[a].RangeTag? && RANGE(TagAt(tags, b)))
      {
        assert Since(UriAt(tags), a, b);
        OncePerUri(env, tags, a, b);
      }
    }
  }
}
