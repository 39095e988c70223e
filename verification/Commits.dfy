/** Segment publication (persistSegment): segments of one track are committed
    in any order, kept in ordinal order, and in every epoch above 0 the segment
    with the lowest ordinal carries a forced discontinuity marker. */
module Commits {
  import opened Archive

  /** The segment that carries an epoch's marker, and its own source flag. */
  datatype Marker = Marker(ordinal: Uint64, sourceDiscontinuity: bool)

  /** The track's root projection and the scheduler's marker table. */
  datatype Track = Track(segments: seq<Segment>, next: Uint64, markers: map<Uint64, Marker>)

  predicate Less(a: Segment, b: Segment) {
    if a.ordinal != b.ordinal then a.ordinal < b.ordinal
    else if a.epoch != b.epoch then a.epoch < b.epoch
    else a.sequence < b.sequence
  }

  function Insert(x: Segment, s: seq<Segment>): (r: seq<Segment>)
    ensures forall y :: y in r <==> y == x || y in s
  {
    if s == [] || Less(x, s[0]) then
      [x] + s
    else
      assert forall y :: y in s <==> y == s[0] || y in s[1..];
      [s[0]] + Insert(x, s[1..])
  }

  /** The library sort. */
  function Sort(s: seq<Segment>): (r: seq<Segment>)
    ensures forall y :: y in r <==> y in s
  {
    if s == [] then []
    else
      assert forall y :: y in s <==> y == s[0] || y in s[1..];
      Insert(s[0], Sort(s[1..]))
  }

  /** In strictly increasing ordinal order. */
  predicate Ordered(s: seq<Segment>) {
    forall i, j | 0 <= i < j < |s| :: s[i].ordinal < s[j].ordinal
  }

  predicate DistinctOrdinals(s: seq<Segment>) {
    forall i, j | 0 <= i < j < |s| :: s[i].ordinal != s[j].ordinal
  }

  lemma {:induction false} InsertOrders(x: Segment, s: seq<Segment>)
    requires Ordered(s) && forall y | y in s :: y.ordinal != x.ordinal
    ensures Ordered(Insert(x, s))
  {
    if s != [] && !Less(x, s[0]) {
      InsertOrders(x, s[1..]);
      var rest := Insert(x, s[1..]);
      forall i | 0 <= i < |rest| ensures s[0].ordinal < rest[i].ordinal {
        assert rest[i] in rest;
        assert s[0] in s;
        if rest[i] != x {
          var j :| 0 <= j < |s[1..]| && s[1..][j] == rest[i];
          assert s[j + 1] == rest[i];
        }
      }
    }
  }

  lemma {:induction false} SortOrders(s: seq<Segment>)
    requires DistinctOrdinals(s)
    ensures Ordered(Sort(s))
  {
    if s != [] {
      SortOrders(s[1..]);
      forall y | y in Sort(s[1..]) ensures y.ordinal != s[0].ordinal {
        var j :| 0 <= j < |s[1..]| && s[1..][j] == y;
        assert s[j + 1] == y;
      }
      InsertOrders(s[0], Sort(s[1..]));
    }
  }

  /** Ordered lists with the same elements are the same list. */
  lemma {:induction false} OrderedIsUnique(s: seq<Segment>, t: seq<Segment>)
    requires Ordered(s) && Ordered(t) && forall y :: y in s <==> y in t
    ensures s == t
  {
    if s == [] {
      assert forall i | 0 <= i < |t| :: t[i] in t;
    } else {
      assert s[0] in s && (t != [] ==> t[0] in t);
      assert t != [];
      var i :| 0 <= i < |t| && t[i] == s[0];
      var j :| 0 <= j < |s| && s[j] == t[0];
      assert s[0] == t[0];
      forall y ensures y in s[1..] <==> y in t[1..] {
        assert y in s <==> y == s[0] || y in s[1..];
        assert y in t <==> y == t[0] || y in t[1..];
      }
      OrderedIsUnique(s[1..], t[1..]);
    }
  }

  /** The marker an epoch has from its archived segments, when the table has none. */
  function LowestInEpoch(segments: seq<Segment>, epoch: Uint64): (r: Option<Marker>) {
    if segments == [] then None
    else
      var n := |segments| - 1;
      var rest := LowestInEpoch(segments[..n], epoch);
      var candidate := segments[n];
      if candidate.epoch == epoch && (rest == None || rest.value.ordinal == 0 || candidate.ordinal < rest.value.ordinal)
      then Some(Marker(candidate.ordinal, candidate.discontinuity))
      else rest
  }

  function CurrentMarker(t: Track, epoch: Uint64): Option<Marker> {
    if epoch in t.markers then Some(t.markers[epoch]) else LowestInEpoch(t.segments, epoch)
  }

  predicate HasKey(segments: seq<Segment>, epoch: Uint64, sequence: Uint64) {
    exists i | 0 <= i < |segments| :: segments[i].epoch == epoch && segments[i].sequence == sequence
  }

  /** Give the segment that carried the marker its source flag back. */
  function Restore(segments: seq<Segment>, epoch: Uint64, m: Marker): (r: seq<Segment>)
    ensures |r| == |segments|
  {
    seq(|segments|, i requires 0 <= i < |segments| =>
      if segments[i].epoch == epoch && segments[i].ordinal == m.ordinal
      then segments[i].(discontinuity := m.sourceDiscontinuity) else segments[i])
  }

  /** The new segment becomes the epoch's lowest and takes the marker. */
  predicate TakesMarker(t: Track, s: Segment) {
    s.epoch > 0 && (CurrentMarker(t, s.epoch) == None || s.ordinal < CurrentMarker(t, s.epoch).value.ordinal)
  }

  function AsCommitted(t: Track, s: Segment): Segment {
    if TakesMarker(t, s) then s.(discontinuity := true) else s
  }

  /** What is already on the track, rewritten if the marker moves. */
  function EarlierSegments(t: Track, s: Segment): seq<Segment> {
    if TakesMarker(t, s) && CurrentMarker(t, s.epoch).Some?
    then Restore(t.segments, s.epoch, CurrentMarker(t, s.epoch).value) else t.segments
  }

  function MarkersAfter(t: Track, s: Segment): map<Uint64, Marker> {
    if s.epoch == 0 then t.markers
    else if TakesMarker(t, s) then t.markers[s.epoch := Marker(s.ordinal, s.discontinuity)]
    else t.markers[s.epoch := CurrentMarker(t, s.epoch).value]
  }

  function NextAfter(next: Uint64, s: Segment): Uint64 {
    if s.ordinal >= next && s.ordinal < MAX_UINT64 then s.ordinal + 1 else next
  }

  /** The archive ordinal overflow error. */
  predicate Overflows(t: Track, s: Segment) {
    s.ordinal == MAX_UINT64 && s.ordinal >= t.next && !HasKey(t.segments, s.epoch, s.sequence)
  }

  /** One committed segment. */
  function Commit(t: Track, s: Segment): Track {
    if Overflows(t, s) then t
    else if HasKey(t.segments, s.epoch, s.sequence) then t.(markers := MarkersAfter(t, s))
    else Track(Sort(EarlierSegments(t, s) + [AsCommitted(t, s)]), NextAfter(t.next, s), MarkersAfter(t, s))
  }

  function CommitAll(t: Track, cs: seq<Segment>): Track {
    if cs == [] then t else Commit(CommitAll(t, cs[..|cs| - 1]), cs[|cs| - 1])
  }

  /** What a scheduler lifetime starts from: its own marker table is empty and
      its ordinals are above all archived ones. */
  predicate Base(t: Track) {
    && Ordered(t.segments) && t.markers == map[] && t.next > 0
    && (forall s | s in t.segments :: 0 < s.ordinal < t.next)
  }

  /** What the scheduler commits: new ordinals, new keys, each once. */
  predicate Admissible(t: Track, cs: seq<Segment>) {
    && DistinctOrdinals(cs)
    && (forall c | c in cs :: t.next <= c.ordinal < MAX_UINT64)
    && (forall i, j | 0 <= i < j < |cs| :: cs[i].epoch != cs[j].epoch || cs[i].sequence != cs[j].sequence)
    && (forall c | c in cs :: !HasKey(t.segments, c.epoch, c.sequence))
  }

  /** `c` opens its epoch: no archived or committed segment of it comes earlier. */
  predicate OpensEpoch(t: Track, cs: seq<Segment>, c: Segment) {
    && c.epoch > 0
    && (forall b | b in t.segments :: b.epoch != c.epoch)
    && (forall d | d in cs && d.epoch == c.epoch :: c.ordinal <= d.ordinal)
  }

  /** How a committed segment finally reads. */
  function Published(t: Track, cs: seq<Segment>, c: Segment): Segment {
    if OpensEpoch(t, cs, c) then c.(discontinuity := true) else c
  }

  /** The marker of epoch `e` once `cs` are committed: its lowest segment with
      that segment's source flag. */
  ghost predicate MarkerFor(t: Track, cs: seq<Segment>, e: Uint64, m: Marker) {
    || (exists b | b in t.segments :: LowestOf(t.segments, b) && b.epoch == e && m == Marker(b.ordinal, b.discontinuity))
    || ((forall b | b in t.segments :: b.epoch != e) &&
        (exists c | c in cs :: LowestOf(cs, c) && c.epoch == e && m == Marker(c.ordinal, c.discontinuity)))
  }

  predicate LowestOf(s: seq<Segment>, x: Segment) {
    x in s && forall y | y in s && y.epoch == x.epoch :: x.ordinal <= y.ordinal
  }

  /** The track shows the archived segments and `cs`, as published. */
  ghost predicate Shows(base: Track, cs: seq<Segment>, segments: seq<Segment>) {
    forall s :: s in segments <==> s in base.segments || exists c | c in cs :: s == Published(base, cs, c)
  }

  /** The marker table knows exactly the epochs above 0 that `cs` touched. */
  ghost predicate Marks(base: Track, cs: seq<Segment>, markers: map<Uint64, Marker>) {
    && (forall e :: e in markers <==> e > 0 && exists c | c in cs :: c.epoch == e)
    && (forall e | e in markers :: MarkerFor(base, cs, e, markers[e]))
  }

  /** The next ordinal is just above everything allocated so far. */
  predicate NextAbove(base: Track, cs: seq<Segment>, next: Uint64) {
    && base.next <= next
    && (forall c | c in cs :: c.ordinal < next)
    && (next == base.next || exists c | c in cs :: next == c.ordinal + 1)
  }

  /** The whole state after committing `cs`, in any order, on top of `base`. */
  ghost predicate Holds(base: Track, cs: seq<Segment>, t: Track) {
    Ordered(t.segments) && Shows(base, cs, t.segments) && Marks(base, cs, t.markers) && NextAbove(base, cs, t.next)
  }

  /** What the code finds as the marker of `e`: none before the epoch's first segment. */
  ghost predicate Found(base: Track, cs: seq<Segment>, e: Uint64, m: Option<Marker>) {
    if m == None then (forall b | b in base.segments :: b.epoch != e) && (forall c | c in cs :: c.epoch != e)
    else MarkerFor(base, cs, e, m.value)
  }

  lemma {:induction false} LowestInEpochIs(segments: seq<Segment>, e: Uint64)
    requires forall s | s in segments :: s.ordinal > 0
    ensures var r := LowestInEpoch(segments, e);
      if r == None then forall s | s in segments :: s.epoch != e
      else exists s | s in segments :: LowestOf(segments, s) && s.epoch == e && r.value == Marker(s.ordinal, s.discontinuity)
  {
    if segments != [] {
      var n := |segments| - 1;
      var init, last := segments[..n], segments[n];
      assert segments == init + [last];
      LowestInEpochIs(init, e);
      var r := LowestInEpoch(init, e);
      assert last in segments;
      if r.Some? {
        var s :| s in init && LowestOf(init, s) && s.epoch == e && r.value == Marker(s.ordinal, s.discontinuity);
        assert s in segments;
        if last.epoch == e && last.ordinal < s.ordinal {
          assert LowestOf(segments, last);
        } else {
          assert LowestOf(segments, s);
        }
      } else if last.epoch == e {
        assert LowestOf(segments, last);
      }
    }
  }

  /** A segment on the track is archived from before or one of the commits. */
  lemma Origin(base: Track, cs: seq<Segment>, segments: seq<Segment>, s: Segment) returns (c: Segment)
    requires Shows(base, cs, segments) && s in segments
    ensures s in base.segments || (c in cs && s == Published(base, cs, c) &&
      c.epoch == s.epoch && c.ordinal == s.ordinal && c.sequence == s.sequence)
  {
    if s in base.segments { c := s; } else { c :| c in cs && s == Published(base, cs, c); }
  }

  lemma ArchivedOfEpoch(base: Track, cs: seq<Segment>, segments: seq<Segment>, e: Uint64, s: Segment)
    requires Base(base) && Admissible(base, cs) && Shows(base, cs, segments) && s in segments
    ensures s.ordinal > 0
    ensures s.epoch == e && (forall c | c in cs :: c.epoch != e) ==> s in base.segments
  {
    var c := Origin(base, cs, segments, s);
  }

  /** The marker the code consults is the marker of the epoch. */
  lemma CurrentMarkerIs(base: Track, cs: seq<Segment>, t: Track, e: Uint64)
    requires Base(base) && Admissible(base, cs) && e > 0
    requires Shows(base, cs, t.segments) && Marks(base, cs, t.markers)
    ensures Found(base, cs, e, CurrentMarker(t, e))
  {
    if e !in t.markers {
      forall s | s in t.segments ensures s.ordinal > 0 && (s.epoch == e ==> s in base.segments) {
        ArchivedOfEpoch(base, cs, t.segments, e, s);
      }
      LowestInEpochIs(t.segments, e);
      MarkerFromArchive(base, cs, t.segments, e, LowestInEpoch(t.segments, e));
    }
  }

  lemma MarkerFromArchive(base: Track, cs: seq<Segment>, segments: seq<Segment>, e: Uint64, r: Option<Marker>)
    requires forall b | b in base.segments :: b in segments
    requires forall s | s in segments && s.epoch == e :: s in base.segments
    requires forall c | c in cs :: c.epoch != e
    requires if r == None then forall s | s in segments :: s.epoch != e
      else exists s | s in segments :: LowestOf(segments, s) && s.epoch == e && r.value == Marker(s.ordinal, s.discontinuity)
    ensures Found(base, cs, e, r)
  {
    if r.Some? {
      var s :| s in segments && LowestOf(segments, s) && s.epoch == e && r.value == Marker(s.ordinal, s.discontinuity);
      assert LowestOf(base.segments, s);
    }
  }

  /** A commit's ordinal is new, and above all archived ones. */
  lemma OrdinalIsNew(base: Track, cs: seq<Segment>, c: Segment)
    requires Base(base) && Admissible(base, cs + [c])
    ensures Admissible(base, cs)
    ensures forall d | d in cs :: d.ordinal != c.ordinal && (d.epoch != c.epoch || d.sequence != c.sequence)
    ensures forall b | b in base.segments :: b.ordinal < c.ordinal
    ensures c.ordinal < MAX_UINT64 && !HasKey(base.segments, c.epoch, c.sequence)
  {
    var all := cs + [c];
    assert all[|cs|] == c && c in all;
    assert forall i | 0 <= i < |cs| :: all[i] == cs[i];
    assert forall d | d in cs :: d in all;
    forall d | d in cs ensures d.ordinal != c.ordinal && (d.epoch != c.epoch || d.sequence != c.sequence) {
      var i :| 0 <= i < |cs| && cs[i] == d;
      assert all[i] == d && i < |cs|;
    }
  }

  lemma CommitIsNew(base: Track, cs: seq<Segment>, c: Segment, segments: seq<Segment>)
    requires Base(base) && Admissible(base, cs + [c]) && Shows(base, cs, segments)
    ensures !HasKey(segments, c.epoch, c.sequence)
    ensures forall s | s in segments :: s.ordinal != c.ordinal
  {
    OrdinalIsNew(base, cs, c);
    forall i | 0 <= i < |segments|
      ensures segments[i].ordinal != c.ordinal
      ensures !(segments[i].epoch == c.epoch && segments[i].sequence == c.sequence)
    {
      var s := segments[i];
      var o := Origin(base, cs, segments, s);
      if s in base.segments {
        var j :| 0 <= j < |base.segments| && base.segments[j] == s;
      }
    }
  }

  /** The list after a commit is a sort of distinct ordinals. */
  lemma CommitOrders(segments: seq<Segment>, earlier: seq<Segment>, c: Segment)
    requires Ordered(segments) && |earlier| == |segments|
    requires forall i | 0 <= i < |earlier| :: earlier[i].ordinal == segments[i].ordinal
    requires forall s | s in segments :: s.ordinal != c.ordinal
    ensures Ordered(Sort(earlier + [c]))
  {
    forall i | 0 <= i < |earlier| ensures earlier[i].ordinal != c.ordinal {
      assert segments[i] in segments;
    }
    SortOrders(earlier + [c]);
  }

  /** Publishing depends only on whether the segment opens its epoch. */
  lemma PublishedStable(base: Track, cs: seq<Segment>, c: Segment, d: Segment)
    requires d in cs
    requires OpensEpoch(base, cs, d) && d.epoch == c.epoch ==> d.ordinal <= c.ordinal
    ensures Published(base, cs + [c], d) == Published(base, cs, d)
  {
    assert forall x :: x in cs + [c] <==> x in cs || x == c;
  }

  /** `earlier` shows every archived segment and every commit of `cs` as they
      read once `c` is committed too. */
  ghost predicate Rewritten(base: Track, cs: seq<Segment>, c: Segment, earlier: seq<Segment>) {
    forall y :: y in earlier <==> y in base.segments || exists d | d in cs :: y == Published(base, cs + [c], d)
  }

  lemma DistinctPick(cs: seq<Segment>, c: Segment, d: Segment)
    requires DistinctOrdinals(cs) && c in cs && d in cs && c.ordinal == d.ordinal
    ensures c == d
  {
    var i :| 0 <= i < |cs| && cs[i] == c;
    var j :| 0 <= j < |cs| && cs[j] == d;
  }

  /** The marker does not move: nothing already on the track changes. */
  lemma UnmovedRewrites(base: Track, cs: seq<Segment>, segments: seq<Segment>, c: Segment)
    requires Shows(base, cs, segments)
    requires forall d | d in cs && OpensEpoch(base, cs, d) && d.epoch == c.epoch :: d.ordinal <= c.ordinal
    ensures Rewritten(base, cs, c, segments)
  {
    forall d | d in cs ensures Published(base, cs + [c], d) == Published(base, cs, d) {
      PublishedStable(base, cs, c, d);
    }
  }

  function Restored(s: Segment, e: Uint64, m: Marker): Segment {
    if s.epoch == e && s.ordinal == m.ordinal then s.(discontinuity := m.sourceDiscontinuity) else s
  }

  /** When the marker moves off `d0`, restoring reads every commit as published afterwards. */
  lemma RestoredIsPublished(base: Track, cs: seq<Segment>, c: Segment, d0: Segment, d: Segment)
    requires DistinctOrdinals(cs) && c.epoch > 0
    requires forall b | b in base.segments :: b.epoch != c.epoch
    requires d0 in cs && LowestOf(cs, d0) && d0.epoch == c.epoch && c.ordinal < d0.ordinal && d in cs
    ensures Published(base, cs + [c], d) == Restored(Published(base, cs, d), c.epoch, Marker(d0.ordinal, d0.discontinuity))
  {
    assert c in cs + [c] && d in cs + [c];
    if d.ordinal == d0.ordinal { DistinctPick(cs, d, d0); }
    if d != d0 { PublishedStable(base, cs, c, d); }
  }

  /** The marker moves off `d0`: exactly `d0` gets its source flag back. */
  lemma MovedRewrites(base: Track, cs: seq<Segment>, segments: seq<Segment>, c: Segment, d0: Segment)
    requires DistinctOrdinals(cs) && Shows(base, cs, segments) && c.epoch > 0
    requires forall b | b in base.segments :: b.epoch != c.epoch
    requires d0 in cs && LowestOf(cs, d0) && d0.epoch == c.epoch && c.ordinal < d0.ordinal
    ensures Rewritten(base, cs, c, Restore(segments, c.epoch, Marker(d0.ordinal, d0.discontinuity)))
  {
    var m := Marker(d0.ordinal, d0.discontinuity);
    var earlier := Restore(segments, c.epoch, m);
    assert forall i | 0 <= i < |segments| :: earlier[i] == Restored(segments[i], c.epoch, m);
    forall y | y in earlier ensures y in base.segments || exists d | d in cs :: y == Published(base, cs + [c], d) {
      var i :| 0 <= i < |earlier| && earlier[i] == y;
      var d := Origin(base, cs, segments, segments[i]);
      if segments[i] !in base.segments { RestoredIsPublished(base, cs, c, d0, d); }
    }
    forall y | y in base.segments || exists d | d in cs :: y == Published(base, cs + [c], d) ensures y in earlier {
      if y in base.segments {
        RestoredIn(segments, c.epoch, m, y);
      } else {
        var d :| d in cs && y == Published(base, cs + [c], d);
        RestoredIsPublished(base, cs, c, d0, d);
        RestoredIn(segments, c.epoch, m, Published(base, cs, d));
      }
    }
  }

  lemma RestoredIn(segments: seq<Segment>, e: Uint64, m: Marker, s: Segment)
    requires s in segments
    ensures Restored(s, e, m) in Restore(segments, e, m)
  {
    var i :| 0 <= i < |segments| && segments[i] == s;
    assert Restore(segments, e, m)[i] == Restored(s, e, m);
  }

  /** The new segment opens its epoch exactly when the marker moves to it. */
  lemma MovesIsOpens(base: Track, cs: seq<Segment>, c: Segment, m: Option<Marker>)
    requires c.epoch > 0 && Found(base, cs, c.epoch, m)
    requires forall d | d in cs :: d.ordinal != c.ordinal
    requires forall b | b in base.segments :: b.ordinal < c.ordinal
    ensures OpensEpoch(base, cs + [c], c) <==> m == None || c.ordinal < m.value.ordinal
  {
    assert forall x :: x in cs + [c] <==> x in cs || x == c;
    if m.Some? && !(exists b | b in base.segments :: b.epoch == c.epoch) {
      var d :| d in cs && LowestOf(cs, d) && d.epoch == c.epoch && m.value == Marker(d.ordinal, d.discontinuity);
    }
  }

  lemma RewritesFound(base: Track, cs: seq<Segment>, segments: seq<Segment>, c: Segment, m: Option<Marker>)
    requires DistinctOrdinals(cs) && Shows(base, cs, segments) && c.epoch > 0 && Found(base, cs, c.epoch, m)
    requires forall b | b in base.segments :: b.ordinal < c.ordinal
    ensures Rewritten(base, cs, c, if m.Some? && c.ordinal < m.value.ordinal then Restore(segments, c.epoch, m.value) else segments)
  {
    if m == None || exists b | b in base.segments :: b.epoch == c.epoch {
      UnmovedRewrites(base, cs, segments, c);
    } else {
      var d :| d in cs && LowestOf(cs, d) && d.epoch == c.epoch && m.value == Marker(d.ordinal, d.discontinuity);
      if c.ordinal < d.ordinal {
        MovedRewrites(base, cs, segments, c, d);
      } else {
        UnmovedRewrites(base, cs, segments, c);
      }
    }
  }

  lemma MarkerOther(base: Track, cs: seq<Segment>, c: Segment, e: Uint64, m: Marker)
    requires MarkerFor(base, cs, e, m) && c.epoch != e
    ensures MarkerFor(base, cs + [c], e, m)
  {
    if d :| d in cs && LowestOf(cs, d) && d.epoch == e && m == Marker(d.ordinal, d.discontinuity) {
      assert LowestOf(cs + [c], d);
    }
  }

  lemma MarkerExtended(base: Track, cs: seq<Segment>, c: Segment, m: Option<Marker>, r: Marker)
    requires forall b | b in base.segments :: b.ordinal < c.ordinal
    requires Found(base, cs, c.epoch, m)
    requires r == if m == None || c.ordinal < m.value.ordinal then Marker(c.ordinal, c.discontinuity) else m.value
    ensures MarkerFor(base, cs + [c], c.epoch, r)
  {
    var all := cs + [c];
    assert forall x :: x in all <==> x in cs || x == c;
    if m == None {
      assert LowestOf(all, c);
    } else if b :| b in base.segments && LowestOf(base.segments, b) && b.epoch == c.epoch && m.value == Marker(b.ordinal, b.discontinuity) {
    } else {
      var d :| d in cs && LowestOf(cs, d) && d.epoch == c.epoch && m.value == Marker(d.ordinal, d.discontinuity);
      if c.ordinal < d.ordinal { assert LowestOf(all, c); } else { assert LowestOf(all, d); }
    }
  }

  lemma MarksKept(base: Track, cs: seq<Segment>, markers: map<Uint64, Marker>, c: Segment, m: Option<Marker>, r: Marker)
    requires forall b | b in base.segments :: b.ordinal < c.ordinal
    requires Marks(base, cs, markers) && c.epoch > 0 && Found(base, cs, c.epoch, m)
    requires r == if m == None || c.ordinal < m.value.ordinal then Marker(c.ordinal, c.discontinuity) else m.value
    ensures Marks(base, cs + [c], markers[c.epoch := r])
  {
    var all, after := cs + [c], markers[c.epoch := r];
    assert forall x :: x in all <==> x in cs || x == c;
    forall e ensures e in after <==> e > 0 && exists d | d in all :: d.epoch == e {
      if e == c.epoch { assert c in all; }
      if d :| d in cs && d.epoch == e { assert d in all; }
    }
    MarkerExtended(base, cs, c, m, r);
    forall e | e in after && e != c.epoch ensures MarkerFor(base, all, e, after[e]) {
      MarkerOther(base, cs, c, e, markers[e]);
    }
  }

  lemma MarksKeptAtZero(base: Track, cs: seq<Segment>, markers: map<Uint64, Marker>, c: Segment)
    requires Marks(base, cs, markers) && c.epoch == 0
    ensures Marks(base, cs + [c], markers)
  {
    var all := cs + [c];
    assert forall x :: x in all <==> x in cs || x == c;
    forall e ensures e in markers <==> e > 0 && exists d | d in all :: d.epoch == e {
      if d :| d in cs && d.epoch == e { assert d in all; }
    }
    forall e | e in markers ensures MarkerFor(base, all, e, markers[e]) {
      MarkerOther(base, cs, c, e, markers[e]);
    }
  }

  /** Sorting the rewritten list with the published segment shows one commit more. */
  lemma ShowsOneMore(base: Track, cs: seq<Segment>, c: Segment, earlier: seq<Segment>)
    requires Rewritten(base, cs, c, earlier)
    ensures Shows(base, cs + [c], Sort(earlier + [Published(base, cs + [c], c)]))
  {
    var p := Published(base, cs + [c], c);
    var r := Sort(earlier + [p]);
    assert c in cs + [c];
    forall s ensures s in r <==> s in base.segments || exists d | d in cs + [c] :: s == Published(base, cs + [c], d) {
      assert s in r <==> s in earlier || s == p;
    }
  }

  lemma CommitShows(base: Track, cs: seq<Segment>, t: Track, c: Segment)
    requires Base(base) && Admissible(base, cs + [c]) && Holds(base, cs, t)
    ensures Rewritten(base, cs, c, EarlierSegments(t, c))
    ensures AsCommitted(t, c) == Published(base, cs + [c], c)
    ensures Marks(base, cs + [c], MarkersAfter(t, c))
  {
    OrdinalIsNew(base, cs, c);
    if c.epoch == 0 {
      UnmovedRewrites(base, cs, t.segments, c);
      MarksKeptAtZero(base, cs, t.markers, c);
    } else {
      var m := CurrentMarker(t, c.epoch);
      CurrentMarkerIs(base, cs, t, c.epoch);
      MovesIsOpens(base, cs, c, m);
      RewritesFound(base, cs, t.segments, c, m);
      MarksKept(base, cs, t.markers, c, m,
        if m == None || c.ordinal < m.value.ordinal then Marker(c.ordinal, c.discontinuity) else m.value);
    }
  }

  /** The list after one commit. */
  lemma CommitLists(base: Track, cs: seq<Segment>, t: Track, c: Segment)
    requires Base(base) && Admissible(base, cs + [c]) && Holds(base, cs, t)
    ensures !HasKey(t.segments, c.epoch, c.sequence)
    ensures var r := Sort(EarlierSegments(t, c) + [AsCommitted(t, c)]); Ordered(r) && Shows(base, cs + [c], r)
    ensures Marks(base, cs + [c], MarkersAfter(t, c))
  {
    CommitIsNew(base, cs, c, t.segments);
    CommitShows(base, cs, t, c);
    var earlier := EarlierSegments(t, c);
    ShowsOneMore(base, cs, c, earlier);
    assert |earlier| == |t.segments| && forall i | 0 <= i < |earlier| :: earlier[i].ordinal == t.segments[i].ordinal;
    CommitOrders(t.segments, earlier, AsCommitted(t, c));
  }

  /** One commit keeps the whole invariant, wherever its ordinal falls. */
  lemma CommitKeeps(base: Track, cs: seq<Segment>, t: Track, c: Segment)
    requires Base(base) && Admissible(base, cs + [c]) && Holds(base, cs, t)
    ensures Holds(base, cs + [c], Commit(t, c))
  {
    OrdinalIsNew(base, cs, c);
    CommitLists(base, cs, t, c);
    NextKept(base, cs, t.next, c);
  }

  lemma NextKept(base: Track, cs: seq<Segment>, next: Uint64, c: Segment)
    requires NextAbove(base, cs, next) && c.ordinal < MAX_UINT64
    ensures NextAbove(base, cs + [c], NextAfter(next, c))
  {
    assert forall x :: x in cs + [c] <==> x in cs || x == c;
  }

  lemma {:induction false} CommitAllHolds(base: Track, cs: seq<Segment>)
    requires Base(base) && Admissible(base, cs)
    ensures Holds(base, cs, CommitAll(base, cs))
  {
    if cs != [] {
      var init, c := cs[..|cs| - 1], cs[|cs| - 1];
      assert cs == init + [c];
      OrdinalIsNew(base, init, c);
      CommitAllHolds(base, init);
      CommitKeeps(base, init, CommitAll(base, init), c);
    }
  }

  lemma SameMeaning(base: Track, cs: seq<Segment>, ds: seq<Segment>)
    requires forall c :: c in cs <==> c in ds
    ensures forall c :: Published(base, cs, c) == Published(base, ds, c)
  {
  }

  lemma MarksAreUnique(base: Track, cs: seq<Segment>, ds: seq<Segment>, m: map<Uint64, Marker>, n: map<Uint64, Marker>)
    requires forall c :: c in cs <==> c in ds
    requires DistinctOrdinals(cs) && Ordered(base.segments) && Marks(base, cs, m) && Marks(base, ds, n)
    ensures m == n
  {
    assert m.Keys == n.Keys;
    forall e | e in m ensures m[e] == n[e] {
      MarkerIsUnique(base, cs, ds, e, m[e], n[e]);
    }
  }

  lemma MarkerIsUnique(base: Track, cs: seq<Segment>, ds: seq<Segment>, e: Uint64, m: Marker, n: Marker)
    requires forall c :: c in cs <==> c in ds
    requires DistinctOrdinals(cs) && Ordered(base.segments) && MarkerFor(base, cs, e, m) && MarkerFor(base, ds, e, n)
    ensures m == n
  {
    if exists b | b in base.segments :: b.epoch == e {
      var b :| b in base.segments && LowestOf(base.segments, b) && b.epoch == e && m == Marker(b.ordinal, b.discontinuity);
      var d :| d in base.segments && LowestOf(base.segments, d) && d.epoch == e && n == Marker(d.ordinal, d.discontinuity);
      DistinctPick(base.segments, b, d);
    } else {
      var c :| c in cs && LowestOf(cs, c) && c.epoch == e && m == Marker(c.ordinal, c.discontinuity);
      var d :| d in ds && LowestOf(ds, d) && d.epoch == e && n == Marker(d.ordinal, d.discontinuity);
      DistinctPick(cs, c, d);
    }
  }

  lemma NextIsUnique(base: Track, cs: seq<Segment>, ds: seq<Segment>, m: Uint64, n: Uint64)
    requires forall c :: c in cs <==> c in ds
    requires NextAbove(base, cs, m) && NextAbove(base, ds, n)
    ensures m == n
  {
  }

  lemma MultiplicityTwo(s: seq<Segment>, i: nat, j: nat)
    requires i < j < |s| && s[i] == s[j]
    ensures multiset(s)[s[i]] >= 2
  {
    assert s == s[..j] + s[j..];
    assert s[..j][i] in multiset(s[..j]) && s[j..][0] in multiset(s[j..]);
    assert multiset(s) == multiset(s[..j]) + multiset(s[j..]);
  }

  lemma MultiplicityOne(s: seq<Segment>, i: nat)
    requires DistinctOrdinals(s) && i < |s|
    ensures multiset(s)[s[i]] == 1
  {
    var x, before, after := s[i], s[..i], s[i + 1..];
    assert s == before + [x] + after;
    assert multiset(s) == multiset(before) + multiset([x]) + multiset(after);
    assert x !in before && x !in after;
    assert x !in multiset(before) && x !in multiset(after);
  }

  lemma SameElementIsSameIndex(cs: seq<Segment>, ds: seq<Segment>, i: nat, j: nat)
    requires DistinctOrdinals(cs) && multiset(cs) == multiset(ds) && i < j < |ds|
    ensures ds[i] != ds[j]
  {
    if ds[i] == ds[j] {
      MultiplicityTwo(ds, i, j);
      assert ds[i] in multiset(ds);
      var k :| 0 <= k < |cs| && cs[k] == ds[i];
      MultiplicityOne(cs, k);
    }
  }

  lemma PermutationAdmissible(base: Track, cs: seq<Segment>, ds: seq<Segment>)
    requires Admissible(base, cs) && multiset(cs) == multiset(ds)
    ensures Admissible(base, ds)
  {
    forall d | d in ds ensures d in cs {
      assert d in multiset(ds);
    }
    forall i, j | 0 <= i < j < |ds|
      ensures ds[i].ordinal != ds[j].ordinal && (ds[i].epoch != ds[j].epoch || ds[i].sequence != ds[j].sequence)
    {
      SameElementIsSameIndex(cs, ds, i, j);
      assert ds[i] in ds && ds[j] in ds;
      var k :| 0 <= k < |cs| && cs[k] == ds[i];
      var l :| 0 <= l < |cs| && cs[l] == ds[j];
    }
  }

  /** Commit order does not matter: every permutation of a scheduler's commits
      leaves the same track, the same next ordinal and the same marker table. */
  lemma CommitOrderIrrelevant(base: Track, cs: seq<Segment>, ds: seq<Segment>)
    requires Base(base) && Admissible(base, cs) && multiset(cs) == multiset(ds)
    ensures CommitAll(base, cs) == CommitAll(base, ds)
  {
    forall c ensures c in cs <==> c in ds {
      assert c in cs <==> c in multiset(cs);
      assert c in ds <==> c in multiset(ds);
    }
    PermutationAdmissible(base, cs, ds);
    CommitAllHolds(base, cs);
    CommitAllHolds(base, ds);
    var t, u := CommitAll(base, cs), CommitAll(base, ds);
    SameMeaning(base, cs, ds);
    OrderedIsUnique(t.segments, u.segments);
    MarksAreUnique(base, cs, ds, t.markers, u.markers);
    NextIsUnique(base, cs, ds, t.next, u.next);
  }

  /** Every epoch above 0 opens with a discontinuity. */
  predicate EpochsMarked(segments: seq<Segment>) {
    forall s | s in segments && s.epoch > 0 && LowestOf(segments, s) :: s.discontinuity
  }

  /** A later scheduler lifetime starts where this one ends: what was archived
      reads as before, epochs still open with their marker, and every segment
      that does not open an epoch keeps its source flag. */
  lemma LifetimeEnds(base: Track, cs: seq<Segment>)
    requires Base(base) && Admissible(base, cs) && EpochsMarked(base.segments)
    ensures var t := CommitAll(base, cs);
      && Base(t.(markers := map[])) && EpochsMarked(t.segments)
      && (forall b | b in base.segments :: b in t.segments)
      && (forall c | c in cs :: Published(base, cs, c) in t.segments && (!OpensEpoch(base, cs, c) ==> c in t.segments))
  {
    CommitAllHolds(base, cs);
    var t := CommitAll(base, cs);
    forall s | s in t.segments
      ensures 0 < s.ordinal < t.next
      ensures s.epoch > 0 && LowestOf(t.segments, s) ==> s.discontinuity
    {
      var c := Origin(base, cs, t.segments, s);
      if s.epoch > 0 && LowestOf(t.segments, s) {
        LowestIsMarked(base, cs, t.segments, s);
      }
    }
  }

  lemma LowestIsMarked(base: Track, cs: seq<Segment>, segments: seq<Segment>, s: Segment)
    requires Base(base) && Admissible(base, cs) && EpochsMarked(base.segments) && Shows(base, cs, segments)
    requires s.epoch > 0 && LowestOf(segments, s)
    ensures s.discontinuity
  {
    if b :| b in base.segments && b.epoch == s.epoch {
      assert b in segments;
      var c := Origin(base, cs, segments, s);
      assert LowestOf(base.segments, s);
    } else {
      var c :| c in cs && s == Published(base, cs, c);
      forall d | d in cs && d.epoch == c.epoch ensures c.ordinal <= d.ordinal {
        assert Published(base, cs, d) in segments;
      }
    }
  }

  function IdOf(s: Segment): Uint64 { s.ordinal }

  predicate SidecarsAgree(sidecars: map<Uint64, Segment>, segments: seq<Segment>) {
    forall s | s in segments :: IdOf(s) in sidecars && sidecars[IdOf(s)] == s
  }

  lemma CommitKeepsOrder(t: Track, s: Segment)
    requires Ordered(t.segments)
    requires !HasKey(t.segments, s.epoch, s.sequence) ==> forall b | b in t.segments :: b.ordinal != s.ordinal
    ensures Ordered(Commit(t, s).segments)
  {
    if !HasKey(t.segments, s.epoch, s.sequence) {
      CommitOrders(t.segments, EarlierSegments(t, s), AsCommitted(t, s));
    }
  }
}
