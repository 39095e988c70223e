/** The recording root document and the in-place edits that
    internal/acquire/worker.go makes to it. */
module Recording {
  import opened Archive
  import opened Gaps
  import A = Accounting

  /** The first archived object of an epoch with a given sequence. */
  function FirstCaptured(segments: seq<Segment>, epoch: Uint64, q: Uint64): (r: Option<Segment>)
  {
    if segments == [] then None
    else if segments[0].epoch == epoch && segments[0].sequence == q then Some(segments[0])
    else FirstCaptured(segments[1..], epoch, q)
  }

  /** The archived object and the playlist entry of the same sequence number are
      different source objects. */
  predicate IdentityChanged(captured: Segment, incoming: MediaSegment) {
    || captured.discontinuitySequence != incoming.discontinuitySequence
    || (captured.uri.Uri? && incoming.uri.Uri? && captured.uri.resource != incoming.uri.resource)
    || (captured.programTime.Some? && incoming.programTime.Some? && captured.programTime != incoming.programTime)
  }

  predicate SomeIdentityChanged(segments: seq<Segment>, epoch: Uint64, playlist: seq<MediaSegment>) {
    exists i | 0 <= i < |playlist| ::
      var latest := FirstCaptured(segments, epoch, playlist[i].sequence);
      latest.Some? && IdentityChanged(latest.value, playlist[i])
  }

  /** handoverSourceIdentityChanged */
  function HandoverSourceIdentityChanged(captured: Segment, incoming: MediaSegment): (changed: bool)
    ensures changed <==> IdentityChanged(captured, incoming)
  {
    if captured.discontinuitySequence != incoming.discontinuitySequence then true
    else if captured.uri.Uri? && incoming.uri.Uri? && captured.uri.resource != incoming.uri.resource then true
    else captured.programTime.Some? && incoming.programTime.Some? && captured.programTime != incoming.programTime
  }

  predicate Matches(segment: Segment, epoch: Uint64, q: Uint64) { segment.epoch == epoch && segment.sequence == q }

  /** The segment at j is the first one in the list that matches. */
  predicate FirstMatch(segments: seq<Segment>, epoch: Uint64, q: Uint64, j: nat) {
    j < |segments| && Matches(segments[j], epoch, q) && forall h | 0 <= h < j :: !Matches(segments[h], epoch, q)
  }

  /** The preflight's test of one entry: the first match, and only that one. */
  predicate MatchChanged(segments: seq<Segment>, epoch: Uint64, incoming: MediaSegment) {
    exists j | 0 <= j < |segments| :: FirstMatch(segments, epoch, incoming.sequence, j) && HandoverSourceIdentityChanged(segments[j], incoming)
  }

  predicate SomeMatchChanged(segments: seq<Segment>, epoch: Uint64, playlist: seq<MediaSegment>) {
    exists i | 0 <= i < |playlist| :: MatchChanged(segments, epoch, playlist[i])
  }

  lemma {:induction false} FirstCapturedIs(segments: seq<Segment>, epoch: Uint64, q: Uint64, j: nat)
    requires FirstMatch(segments, epoch, q, j)
    ensures FirstCaptured(segments, epoch, q) == Some(segments[j])
  {
    if j > 0 {
      assert !Matches(segments[0], epoch, q);
      assert FirstMatch(segments[1..], epoch, q, j - 1);
      FirstCapturedIs(segments[1..], epoch, q, j - 1);
    }
  }

  lemma {:induction false} FirstCapturedExists(segments: seq<Segment>, epoch: Uint64, q: Uint64) returns (j: nat)
    requires FirstCaptured(segments, epoch, q).Some?
    ensures FirstMatch(segments, epoch, q, j)
  {
    if Matches(segments[0], epoch, q) {
      j := 0;
    } else {
      j := FirstCapturedExists(segments[1..], epoch, q);
      j := j + 1;
      forall h | 0 <= h < j ensures !Matches(segments[h], epoch, q) {
        if h > 0 { assert segments[h] == segments[1..][h - 1]; }
      }
    }
  }

  /** The observer collects the first match of an entry before it compares; the preflight
      compares inside the search and stops at the first match. Both see the same. */
  lemma ResetTestsAgree(segments: seq<Segment>, epoch: Uint64, playlist: seq<MediaSegment>)
    ensures SomeMatchChanged(segments, epoch, playlist) <==> SomeIdentityChanged(segments, epoch, playlist)
  {
    forall i | 0 <= i < |playlist|
      ensures MatchChanged(segments, epoch, playlist[i]) <==>
        (var latest := FirstCaptured(segments, epoch, playlist[i].sequence); latest.Some? && IdentityChanged(latest.value, playlist[i]))
    {
      var q := playlist[i].sequence;
      forall j: nat | FirstMatch(segments, epoch, q, j) ensures FirstCaptured(segments, epoch, q) == Some(segments[j]) {
        FirstCapturedIs(segments, epoch, q, j);
      }
      if FirstCaptured(segments, epoch, q).Some? {
        var j := FirstCapturedExists(segments, epoch, q);
      }
    }
  }

  /** Some entry is another object than the first one archived under its sequence number:
      discontinuity sequences differ, or resources or program times that both have. */
  predicate Replaced(segments: seq<Segment>, epoch: Uint64, playlist: seq<MediaSegment>) {
    exists i, j | 0 <= i < |playlist| && 0 <= j < |segments| ::
      && FirstMatch(segments, epoch, playlist[i].sequence, j)
      && (|| segments[j].discontinuitySequence != playlist[i].discontinuitySequence
          || (segments[j].uri != NoUri && playlist[i].uri != NoUri && segments[j].uri.resource != playlist[i].uri.resource)
          || (segments[j].programTime != None && playlist[i].programTime != None && segments[j].programTime != playlist[i].programTime))
  }

  /** Every sequence of the playlist is below the last one observed. */
  predicate Regressed(hasLast: bool, last: Uint64, playlist: seq<MediaSegment>) {
    hasLast && forall i | 0 <= i < |playlist| :: playlist[i].sequence < last
  }

  lemma MatchReplaced(captured: Segment, incoming: MediaSegment)
    ensures HandoverSourceIdentityChanged(captured, incoming) <==>
      || captured.discontinuitySequence != incoming.discontinuitySequence
      || (captured.uri != NoUri && incoming.uri != NoUri && captured.uri.resource != incoming.uri.resource)
      || (captured.programTime != None && incoming.programTime != None && captured.programTime != incoming.programTime)
  {
  }

  lemma SomeMatchReplaced(segments: seq<Segment>, epoch: Uint64, playlist: seq<MediaSegment>)
    ensures SomeMatchChanged(segments, epoch, playlist) <==> Replaced(segments, epoch, playlist)
  {
    forall i, j | 0 <= i < |playlist| && 0 <= j < |segments| { MatchReplaced(segments[j], playlist[i]); }
    if Replaced(segments, epoch, playlist) {
      var i, j :| 0 <= i < |playlist| && 0 <= j < |segments| && FirstMatch(segments, epoch, playlist[i].sequence, j)
        && HandoverSourceIdentityChanged(segments[j], playlist[i]);
      assert MatchChanged(segments, epoch, playlist[i]);
    }
  }

  /** The playlist is of a new source: it regressed, or replaced an archived object. */
  predicate OfNewSource(segments: seq<Segment>, epoch: Uint64, hasLast: bool, last: Uint64, playlist: seq<MediaSegment>) {
    playlist != [] && (Regressed(hasLast, last, playlist) || Replaced(segments, epoch, playlist))
  }

  lemma ResetMeans(segments: seq<Segment>, epoch: Uint64, hasLast: bool, last: Uint64, playlist: seq<MediaSegment>)
    requires playlist != []
    ensures A.Resets(hasLast, last, playlist, SomeMatchChanged(segments, epoch, playlist)) <==> OfNewSource(segments, epoch, hasLast, last, playlist)
    ensures A.Resets(hasLast, last, playlist, SomeIdentityChanged(segments, epoch, playlist)) <==> OfNewSource(segments, epoch, hasLast, last, playlist)
  {
    ResetTestsAgree(segments, epoch, playlist);
    SomeMatchReplaced(segments, epoch, playlist);
  }

  /** The ledger that the document's lists spell out. */
  ghost function AsLedger(gaps: seq<Gap>, segments: seq<Segment>, pendingSegments: seq<Key>, pendingSequences: seq<Uint64>,
                          epoch: Uint64, hasLast: bool, last: Uint64): A.Ledger {
    A.Ledger(epoch, hasLast, last,
      iset k: Key | exists i | 0 <= i < |segments| :: segments[i].epoch == k.epoch && segments[i].sequence == k.sequence,
      iset k: Key | GapCovers(gaps, MAIN_TRACK, k.epoch, k.sequence),
      iset k: Key | k in pendingSegments || (k.epoch == 0 && k.sequence in pendingSequences))
  }

  predicate Absent(playlist: seq<MediaSegment>, hasLast: bool, last: Uint64, minSeq: Uint64, q: Uint64) {
    A.GapMarked(playlist, q) || (hasLast && last < q < minSeq) || A.Skipped(playlist, q)
  }

  class RecordingDoc {
    var gaps: seq<Gap>
    var segments: seq<Segment>
    var pendingSegments: seq<Key>
    /** Legacy entries, implicitly of epoch 0. */
    var pendingSequences: seq<Uint64>
    var sourceEpoch: Uint64
    var hasLast: bool
    var last: Uint64

    ghost predicate Valid() reads this { WellFormed(gaps) }

    ghost function View(): A.Ledger reads this {
      AsLedger(gaps, segments, pendingSegments, pendingSequences, sourceEpoch, hasLast, last)
    }

    /** The sequences of [from, to] that a new gap must not touch. */
    method BlockedIntervals(epoch: Uint64, from: Uint64, to: Uint64, captured: set<Uint64>)
      returns (blocked: seq<Interval>)
      requires WellFormed(gaps) && from <= to
      ensures forall k | 0 <= k < |blocked| :: blocked[k].start <= blocked[k].end <= to
      ensures forall q: Uint64 :: Blocked(blocked, q) <==>
        from <= q <= to && (q in captured || GapCovers(gaps, MAIN_TRACK, epoch, q))
    {
      blocked := [];
      var remaining := captured;
      while remaining != {}
        invariant remaining <= captured
        invariant forall k | 0 <= k < |blocked| :: blocked[k].start <= blocked[k].end <= to
        invariant forall q: Uint64 :: Blocked(blocked, q) <==> q in captured - remaining && from <= q <= to
        decreases |remaining|
      {
        var sequence :| sequence in remaining;
        if from <= sequence <= to {
          BlockedByAppended(blocked, Interval(sequence, sequence));
          blocked := blocked + [Interval(sequence, sequence)];
        }
        remaining := remaining - {sequence};
      }
      for i := 0 to |gaps|
        invariant forall k | 0 <= k < |blocked| :: blocked[k].start <= blocked[k].end <= to
        invariant forall q: Uint64 :: Blocked(blocked, q) <==>
          from <= q <= to && (q in captured || GapCovers(gaps[..i], MAIN_TRACK, epoch, q))
      {
        var gap := gaps[i];
        if !(gap.trackId != MAIN_TRACK || gap.epoch != epoch || gap.to < from || gap.from > to) {
          var start, end := gap.from, gap.to;
          if start < from { start := from; }
          if end > to { end := to; }
          assert gaps[i].from <= gaps[i].to;
          BlockedByAppended(blocked, Interval(start, end));
          blocked := blocked + [Interval(start, end)];
        }
        CoversByAppended(gaps[..i], [gap]);
        assert gaps[..i + 1] == gaps[..i] + [gap];
        assert forall q: Uint64 :: GapCovers([gap], MAIN_TRACK, epoch, q) <==> Covers([gap][0], MAIN_TRACK, epoch, q);
      }
      assert gaps[..|gaps|] == gaps;
    }

    /** The sweep of addMissingRanges over sorted blocked intervals. */
    method AppendUncovered(blocked: seq<Interval>, epoch: Uint64, from: Uint64, to: Uint64, reason: string)
      requires from <= to
      modifies this`gaps
      ensures gaps == old(gaps) + Uncovered(blocked, from, to, epoch, reason)
    {
      var cursor: Uint64 := from;
      var i := 0;
      assert blocked[0..] == blocked;
      FromIsUncovered(blocked, 0, from, to, epoch, reason);
      ghost var all := gaps + UncoveredFrom(blocked, 0, from, to, epoch, reason);
      while i < |blocked|
        invariant 0 <= i <= |blocked| && cursor <= to
        invariant gaps + UncoveredFrom(blocked, i, cursor, to, epoch, reason) == all
      {
        var item := blocked[i];
        SweepRound(gaps, blocked, i, cursor, to, epoch, reason, all);
        i := i + 1;
        if item.end < cursor { continue; }
        if item.start > cursor {
          gaps := gaps + [Gap(MAIN_TRACK, epoch, cursor, item.start - 1, reason)];
        }
        SweepEnds(gaps, blocked, i, item.end + 1, to, epoch, reason);
        if item.end == MAX_UINT64 { return; }
        if item.end >= cursor { cursor := item.end + 1; }
        if cursor > to { return; }
      }
      if cursor <= to {
        gaps := gaps + [Gap(MAIN_TRACK, epoch, cursor, to, reason)];
      }
    }

    /** addMissingRanges: append gaps for the part of [from, to] that is neither
        captured nor already covered by a gap of this track and epoch. */
    method AddMissingRanges(epoch: Uint64, from: Uint64, to: Uint64, captured: set<Uint64>, reason: string)
      requires WellFormed(gaps)
      modifies this`gaps
      ensures WellFormed(gaps)
      ensures old(gaps) <= gaps && Runs(gaps[|old(gaps)|..], from, to, epoch)
      ensures AddsExactly(old(gaps), gaps, epoch, from, to, captured)
      ensures PairwiseApart(old(gaps)) ==> PairwiseApart(gaps)
    {
      if to < from { return; }
      var blocked := BlockedIntervals(epoch, from, to, captured);
      var sorted := SortByStart(blocked);
      BlockedBySorting(blocked, sorted, to);
      AppendedUncovered(gaps, Uncovered(sorted, from, to, epoch, reason), sorted, captured, epoch, from, to, reason);
      AppendUncovered(sorted, epoch, from, to, reason);
      assert gaps[|old(gaps)|..] == Uncovered(sorted, from, to, epoch, reason);
    }

    /** addMissingRanges on one sequence. */
    method AddMissingSequence(epoch: Uint64, sequence: Uint64, captured: set<Uint64>, reason: string)
      requires WellFormed(gaps)
      modifies this`gaps
      ensures WellFormed(gaps) && (PairwiseApart(old(gaps)) ==> PairwiseApart(gaps))
      ensures forall e: Uint64, q: Uint64 :: GapCovers(gaps, MAIN_TRACK, e, q) <==>
        GapCovers(old(gaps), MAIN_TRACK, e, q) || (e == epoch && q == sequence && q !in captured)
    {
      AddMissingRanges(epoch, sequence, sequence, captured, reason);
    }

    /** capturedSequenceSet */
    method CapturedSequenceSet(epoch: Uint64) returns (captured: set<Uint64>)
      ensures forall q: Uint64 :: q in captured <==> Key(epoch, q) in View().captured
    {
      captured := {};
      for i := 0 to |segments|
        invariant forall q: Uint64 :: q in captured <==>
          exists j | 0 <= j < i :: segments[j].epoch == epoch && segments[j].sequence == q
      {
        if segments[i].epoch == epoch { captured := captured + {segments[i].sequence}; }
      }
    }

    /** hasSequence */
    method HasSequence(epoch: Uint64, sequence: Uint64) returns (found: bool)
      ensures found <==> Key(epoch, sequence) in View().captured
    {
      for i := 0 to |segments|
        invariant forall j | 0 <= j < i :: !(segments[j].epoch == epoch && segments[j].sequence == sequence)
      {
        if segments[i].epoch == epoch && segments[i].sequence == sequence { return true; }
      }
      return false;
    }

    /** removePending and, for epoch 0, removeSequence. */
    method RemovePending(epoch: Uint64, sequence: Uint64)
      modifies this`pendingSegments, this`pendingSequences
      ensures View() == old(View()).(pending := old(View()).pending - iset{Key(epoch, sequence)})
    {
      var out: seq<Key> := [];
      for i := 0 to |pendingSegments|
        invariant forall k :: k in out <==> k in pendingSegments[..i] && k != Key(epoch, sequence)
      {
        if pendingSegments[i].epoch != epoch || pendingSegments[i].sequence != sequence {
          out := out + [pendingSegments[i]];
        }
      }
      assert pendingSegments[..|pendingSegments|] == pendingSegments;
      pendingSegments := out;
      if epoch == 0 {
        var legacy: seq<Uint64> := [];
        for i := 0 to |pendingSequences|
          invariant forall q :: q in legacy <==> q in pendingSequences[..i] && q != sequence
        {
          if pendingSequences[i] != sequence { legacy := legacy + [pendingSequences[i]]; }
        }
        assert pendingSequences[..|pendingSequences|] == pendingSequences;
        pendingSequences := legacy;
      }
      assert View().pending == old(View()).pending - iset{Key(epoch, sequence)};
    }

    /** markGap */
    method MarkGap(epoch: Uint64, sequence: Uint64, reason: string)
      requires Valid()
      modifies this
      ensures Valid() && (PairwiseApart(old(gaps)) ==> PairwiseApart(gaps))
      ensures View() == A.MarkGap(old(View()), Key(epoch, sequence))
    {
      var captured := CapturedSequenceSet(epoch);
      AddMissingSequence(epoch, sequence, captured, reason);
      label added:
      assert View().gapped == A.MarkGap(old(View()), Key(epoch, sequence)).gapped;
      RemovePending(epoch, sequence);
    }

    /** markPending */
    method MarkPending(epoch: Uint64, sequence: Uint64)
      modifies this`pendingSegments
      ensures View() == A.MarkPending(old(View()), Key(epoch, sequence))
    {
      for i := 0 to |pendingSegments|
        invariant forall j | 0 <= j < i :: pendingSegments[j] != Key(epoch, sequence)
      {
        if pendingSegments[i].epoch == epoch && pendingSegments[i].sequence == sequence {
          assert View().pending == A.MarkPending(View(), Key(epoch, sequence)).pending;
          return;
        }
      }
      pendingSegments := pendingSegments + [Key(epoch, sequence)];
      assert View().pending == A.MarkPending(old(View()), Key(epoch, sequence)).pending;
    }

    /** markRemainingPending */
    method MarkRemainingPending(epoch: Uint64, sources: seq<MediaSegment>)
      modifies this`pendingSegments
      ensures View() == A.MarkRemainingPending(old(View()), epoch, sources)
    {
      var captured := CapturedSequenceSet(epoch);
      var pending: set<Uint64> := {};
      for i := 0 to |pendingSegments|
        invariant forall q :: q in pending <==> Key(epoch, q) in pendingSegments[..i]
      {
        if pendingSegments[i].epoch == epoch { pending := pending + {pendingSegments[i].sequence}; }
      }
      assert pendingSegments[..|pendingSegments|] == pendingSegments;
      for i := 0 to |sources|
        invariant forall q :: q in pending <==> Key(epoch, q) in pendingSegments
        invariant forall k: Key :: k in pendingSegments <==>
          k in old(pendingSegments) ||
          (k.epoch == epoch && k.sequence !in captured &&
           exists j | 0 <= j < i :: !sources[j].gap && sources[j].sequence == k.sequence)
      {
        var source := sources[i];
        if source.gap || source.sequence in captured || source.sequence in pending { continue; }
        pendingSegments := pendingSegments + [Key(epoch, source.sequence)];
        pending := pending + {source.sequence};
      }
      assert View().pending == A.MarkRemainingPending(old(View()), epoch, sources).pending;
    }

    /** finalizePendingEpochExcept */
    method FinalizePendingEpochExcept(epoch: Uint64, reason: string, protected: set<Key>)
      requires Valid()
      modifies this`gaps, this`pendingSegments, this`pendingSequences
      ensures Valid() && (PairwiseApart(old(gaps)) ==> PairwiseApart(gaps))
      ensures View() == A.FinalizeEpoch(old(View()), epoch, protected)
    {
      var captured := CapturedSequenceSet(epoch);
      var remaining: seq<Key> := [];
      for i := 0 to |pendingSegments|
        invariant pendingSegments == old(pendingSegments) && pendingSequences == old(pendingSequences)
        invariant WellFormed(gaps) && (PairwiseApart(old(gaps)) ==> PairwiseApart(gaps))
        invariant forall k :: k in remaining <==> k in pendingSegments[..i] && (k.epoch != epoch || k in protected)
        invariant forall e: Uint64, q: Uint64 :: GapCovers(gaps, MAIN_TRACK, e, q) <==>
          GapCovers(old(gaps), MAIN_TRACK, e, q) ||
          (e == epoch && q !in captured && Key(e, q) !in protected && Key(e, q) in pendingSegments[..i])
      {
        var item := pendingSegments[i];
        if item.epoch != epoch || item in protected {
          remaining := remaining + [item];
          continue;
        }
        AddMissingSequence(epoch, item.sequence, captured, reason);
      }
      assert pendingSegments[..|pendingSegments|] == pendingSegments;
      pendingSegments := remaining;
      if epoch == 0 {
        var legacy: seq<Uint64> := [];
        for i := 0 to |pendingSequences|
          invariant pendingSegments == remaining && pendingSequences == old(pendingSequences)
          invariant WellFormed(gaps) && (PairwiseApart(old(gaps)) ==> PairwiseApart(gaps))
          invariant forall q :: q in legacy <==> q in pendingSequences[..i] && Key(0, q) in protected
          invariant forall e: Uint64, q: Uint64 :: GapCovers(gaps, MAIN_TRACK, e, q) <==>
            GapCovers(old(gaps), MAIN_TRACK, e, q) ||
            (e == epoch && q !in captured && Key(e, q) !in protected &&
             (Key(e, q) in old(pendingSegments) || q in pendingSequences[..i]))
        {
          var sequence := pendingSequences[i];
          if Key(epoch, sequence) in protected {
            legacy := legacy + [sequence];
            continue;
          }
          AddMissingSequence(epoch, sequence, captured, reason);
        }
        assert pendingSequences[..|pendingSequences|] == pendingSequences;
        pendingSequences := legacy;
      }
      var spec := A.FinalizeEpoch(old(View()), epoch, protected);
      assert View().pending == spec.pending;
      assert View().gapped == spec.gapped;
    }

    /** The epochs that finalizePending visits. */
    method PendingEpochs() returns (epochs: set<Uint64>)
      ensures forall k | k in View().pending :: k.epoch in epochs
    {
      epochs := {sourceEpoch};
      for i := 0 to |pendingSegments|
        invariant forall k | k in pendingSegments[..i] :: k.epoch in epochs
      {
        epochs := epochs + {pendingSegments[i].epoch};
      }
      assert pendingSegments[..|pendingSegments|] == pendingSegments;
      if |pendingSequences| > 0 { epochs := epochs + {0}; }
    }

    /** finalizePending */
    method FinalizePending(reason: string)
      requires Valid()
      modifies this`gaps, this`pendingSegments, this`pendingSequences
      ensures Valid() && (PairwiseApart(old(gaps)) ==> PairwiseApart(gaps))
      ensures View() == A.FinalizeAll(old(View()))
    {
      var epochs := PendingEpochs();
      ghost var before := View();
      NothingFinalized(before, epochs);
      while epochs != {}
        invariant Valid() && (PairwiseApart(old(gaps)) ==> PairwiseApart(gaps))
        invariant View() == A.FinalizeOutside(before, epochs)
        decreases |epochs|
      {
        var epoch :| epoch in epochs;
        FinalizePendingEpochExcept(epoch, reason, {});
        OneMoreFinalized(before, epochs, epoch);
        epochs := epochs - {epoch};
      }
      assert View().pending == iset{};
      assert View().gapped == A.FinalizeAll(before).gapped;
    }

    /** The epoch-reset test of observePlaylistAtGeneration. */
    method DetectsReset(playlist: seq<MediaSegment>, maxSeq: Uint64) returns (reset: bool)
      requires playlist != [] && maxSeq == A.MaxSequence(playlist)
      ensures reset <==> A.Resets(hasLast, last, playlist, SomeIdentityChanged(segments, sourceEpoch, playlist))
    {
      reset := hasLast && maxSeq < last;
      if !reset {
        for p := 0 to |playlist|
          invariant forall j | 0 <= j < p ::
            var latest := FirstCaptured(segments, sourceEpoch, playlist[j].sequence);
            !(latest.Some? && IdentityChanged(latest.value, playlist[j]))
        {
          var incoming := playlist[p];
          var latest: Option<Segment> := None;
          for i := 0 to |segments|
            invariant latest == FirstCaptured(segments[..i], sourceEpoch, incoming.sequence)
          {
            FirstCapturedAppended(segments[..i], segments[i], sourceEpoch, incoming.sequence);
            assert segments[..i + 1] == segments[..i] + [segments[i]];
            if segments[i].epoch == sourceEpoch && segments[i].sequence == incoming.sequence && latest == None {
              latest := Some(segments[i]);
            }
          }
          assert segments[..|segments|] == segments;
          if latest == None { continue; }
          var identityChanged := latest.value.discontinuitySequence != incoming.discontinuitySequence;
          if latest.value.uri.Uri? && incoming.uri.Uri? && latest.value.uri.resource != incoming.uri.resource {
            identityChanged := true;
          }
          if latest.value.programTime.Some? && incoming.programTime.Some? && latest.value.programTime != incoming.programTime {
            identityChanged := true;
          }
          if identityChanged { return true; }
        }
      }
    }

    /** Entries that the manifest itself marks as gaps. */
    method AddManifestGaps(epoch: Uint64, playlist: seq<MediaSegment>, captured: set<Uint64>)
      requires WellFormed(gaps)
      modifies this`gaps
      ensures WellFormed(gaps) && (PairwiseApart(old(gaps)) ==> PairwiseApart(gaps))
      ensures forall e: Uint64, q: Uint64 :: GapCovers(gaps, MAIN_TRACK, e, q) <==>
        GapCovers(old(gaps), MAIN_TRACK, e, q) || (e == epoch && q !in captured && A.GapMarked(playlist, q))
    {
      for i := 0 to |playlist|
        invariant WellFormed(gaps) && (PairwiseApart(old(gaps)) ==> PairwiseApart(gaps))
        invariant forall e: Uint64, q: Uint64 :: GapCovers(gaps, MAIN_TRACK, e, q) <==>
          GapCovers(old(gaps), MAIN_TRACK, e, q) ||
          (e == epoch && q !in captured && exists j | 0 <= j < i :: playlist[j].gap && playlist[j].sequence == q)
      {
        if playlist[i].gap {
          AddMissingSequence(epoch, playlist[i].sequence, captured, "source manifest marked segment as a gap");
        }
      }
    }

    /** Sequences left out between neighbouring entries. */
    method AddSkippedRanges(epoch: Uint64, playlist: seq<MediaSegment>, captured: set<Uint64>)
      requires WellFormed(gaps)
      modifies this`gaps
      ensures WellFormed(gaps) && (PairwiseApart(old(gaps)) ==> PairwiseApart(gaps))
      ensures forall e: Uint64, q: Uint64 :: GapCovers(gaps, MAIN_TRACK, e, q) <==>
        GapCovers(old(gaps), MAIN_TRACK, e, q) || (e == epoch && q !in captured && A.Skipped(playlist, q))
    {
      var i := 1;
      while i < |playlist|
        invariant 1 <= i
        invariant WellFormed(gaps) && (PairwiseApart(old(gaps)) ==> PairwiseApart(gaps))
        invariant forall e: Uint64, q: Uint64 :: GapCovers(gaps, MAIN_TRACK, e, q) <==>
          GapCovers(old(gaps), MAIN_TRACK, e, q) ||
          (e == epoch && q !in captured &&
           exists j | 0 < j < i && j < |playlist| :: playlist[j - 1].sequence < q < playlist[j].sequence)
      {
        var prev, next := playlist[i - 1].sequence, playlist[i].sequence;
        if prev < MAX_UINT64 && next > prev && next - prev > 1 {
          AddMissingRanges(epoch, prev + 1, next - 1, captured, "sequence skipped in manifest");
        }
        i := i + 1;
      }
    }

    /** Pending objects that left the live window become gaps; archived ones are
        dropped unless a live task still protects them. */
    method DropDeparted(epoch: Uint64, playlist: seq<MediaSegment>, maxSeq: Uint64, captured: set<Uint64>, protected: set<Key>)
      requires WellFormed(gaps) && playlist != [] && maxSeq == A.MaxSequence(playlist)
      modifies this`gaps, this`pendingSegments, this`pendingSequences
      ensures WellFormed(gaps) && (PairwiseApart(old(gaps)) ==> PairwiseApart(gaps))
      ensures forall e: Uint64, q: Uint64 :: GapCovers(gaps, MAIN_TRACK, e, q) <==>
        GapCovers(old(gaps), MAIN_TRACK, e, q) ||
        (e == epoch && q !in captured && A.LeftWindow(old(View()), playlist, Key(e, q)))
      ensures forall k: Key :: k in View().pending <==>
        k in old(View()).pending &&
        (k.epoch == epoch ==>
          if k.sequence in captured then k in protected else A.Present(playlist, k.sequence) || maxSeq <= k.sequence)
    {
      var present: set<Uint64> := {};
      for i := 0 to |playlist|
        invariant forall q :: q in present <==> exists j | 0 <= j < i :: playlist[j].sequence == q
      {
        present := present + {playlist[i].sequence};
      }
      var pending: seq<Key> := [];
      for i := 0 to |pendingSegments|
        invariant pendingSegments == old(pendingSegments) && pendingSequences == old(pendingSequences)
        invariant WellFormed(gaps) && (PairwiseApart(old(gaps)) ==> PairwiseApart(gaps))
        invariant forall k: Key :: k in pending <==>
          k in pendingSegments[..i] &&
          (k.epoch == epoch ==>
            if k.sequence in captured then k in protected else k.sequence in present || maxSeq <= k.sequence)
        invariant forall e: Uint64, q: Uint64 :: GapCovers(gaps, MAIN_TRACK, e, q) <==>
          GapCovers(old(gaps), MAIN_TRACK, e, q) ||
          (e == epoch && q !in captured && q !in present && maxSeq > q && Key(e, q) in pendingSegments[..i])
      {
        var item := pendingSegments[i];
        if item.epoch != epoch {
          pending := pending + [item];
          continue;
        }
        if item.sequence in captured {
          if item in protected { pending := pending + [item]; }
          continue;
        }
        if item.sequence !in present && maxSeq > item.sequence {
          AddMissingSequence(epoch, item.sequence, captured, "media left the live window after retries");
          continue;
        }
        pending := pending + [item];
      }
      assert pendingSegments[..|pendingSegments|] == pendingSegments;
      pendingSegments := pending;
      if epoch == 0 {
        DropDepartedLegacy(present, maxSeq, captured, protected);
      }
    }

    /** The same rule for the legacy entries of epoch 0. */
    method DropDepartedLegacy(present: set<Uint64>, maxSeq: Uint64, captured: set<Uint64>, protected: set<Key>)
      requires WellFormed(gaps)
      modifies this`gaps, this`pendingSequences
      ensures WellFormed(gaps) && (PairwiseApart(old(gaps)) ==> PairwiseApart(gaps))
      ensures forall e: Uint64, q: Uint64 :: GapCovers(gaps, MAIN_TRACK, e, q) <==>
        GapCovers(old(gaps), MAIN_TRACK, e, q) ||
        (e == 0 && q !in captured && q !in present && maxSeq > q && q in old(pendingSequences))
      ensures forall q: Uint64 :: q in pendingSequences <==>
        q in old(pendingSequences) &&
        if q in captured then Key(0, q) in protected else q in present || maxSeq <= q
    {
      var legacy: seq<Uint64> := [];
      for i := 0 to |pendingSequences|
        invariant pendingSequences == old(pendingSequences)
        invariant WellFormed(gaps) && (PairwiseApart(old(gaps)) ==> PairwiseApart(gaps))
        invariant forall q: Uint64 :: q in legacy <==>
          q in pendingSequences[..i] &&
          if q in captured then Key(0, q) in protected else q in present || maxSeq <= q
        invariant forall e: Uint64, q: Uint64 :: GapCovers(gaps, MAIN_TRACK, e, q) <==>
          GapCovers(old(gaps), MAIN_TRACK, e, q) ||
          (e == 0 && q !in captured && q !in present && maxSeq > q && q in pendingSequences[..i])
      {
        var sequence := pendingSequences[i];
        if sequence in captured {
          if Key(0, sequence) in protected { legacy := legacy + [sequence]; }
          continue;
        }
        if sequence !in present && maxSeq > sequence {
          AddMissingSequence(0, sequence, captured, "media left the live window after retries");
          continue;
        }
        legacy := legacy + [sequence];
      }
      assert pendingSequences[..|pendingSequences|] == pendingSequences;
      pendingSequences := legacy;
    }

    /** Archived sequences of `epoch` and those held by a live task. */
    method CapturedOrProtected(epoch: Uint64, protected: set<Key>) returns (captured: set<Uint64>)
      ensures forall q: Uint64 :: q in captured <==> Key(epoch, q) in View().captured || Key(epoch, q) in protected
    {
      captured := CapturedSequenceSet(epoch);
      var live := protected;
      while live != {}
        invariant live <= protected
        invariant forall q: Uint64 :: q in captured <==> Key(epoch, q) in View().captured || Key(epoch, q) in protected - live
        decreases |live|
      {
        var k :| k in live;
        if k.epoch == epoch { captured := captured + {k.sequence}; }
        live := live - {k};
      }
    }

    /** What the playlist itself shows to be absent: marked gaps, a jump past the last
        observed sequence, and ranges left out between neighbours. */
    method AddAbsent(epoch: Uint64, playlist: seq<MediaSegment>, minSeq: Uint64, captured: set<Uint64>)
      requires WellFormed(gaps)
      modifies this`gaps
      ensures WellFormed(gaps) && (PairwiseApart(old(gaps)) ==> PairwiseApart(gaps))
      ensures forall e: Uint64, q: Uint64 :: GapCovers(gaps, MAIN_TRACK, e, q) <==>
        GapCovers(old(gaps), MAIN_TRACK, e, q) || (e == epoch && q !in captured && Absent(playlist, hasLast, last, minSeq, q))
    {
      AddManifestGaps(epoch, playlist, captured);
      if hasLast && last < MAX_UINT64 && minSeq > last && minSeq - last > 1 {
        AddMissingRanges(epoch, last + 1, minSeq - 1, captured, "sequence advanced past uncaptured media");
      }
      AddSkippedRanges(epoch, playlist, captured);
    }

    /** The part of observePlaylistAtGeneration after the epoch is settled. */
    method ObserveInEpoch(playlist: seq<MediaSegment>, minSeq: Uint64, maxSeq: Uint64, protected: set<Key>)
      requires Valid() && playlist != [] && minSeq == A.MinSequence(playlist) && maxSeq == A.MaxSequence(playlist)
      modifies this
      ensures Valid() && (PairwiseApart(old(gaps)) ==> PairwiseApart(gaps)) && segments == old(segments)
      ensures View() == A.ObserveInEpoch(old(View()), playlist, protected)
    {
      var epoch := sourceEpoch;
      var captured := CapturedOrProtected(epoch, protected);
      AddAbsent(epoch, playlist, minSeq, captured);
      DropDeparted(epoch, playlist, maxSeq, captured, protected);
      if !hasLast || maxSeq > last { last := maxSeq; }
      hasLast := true;
      var before, spec := old(View()), A.ObserveInEpoch(old(View()), playlist, protected);
      forall k: Key ensures k in View().gapped <==> k in spec.gapped {
        assert k in View().gapped <==> k in before.gapped || A.Missing(before, playlist, protected, k);
      }
      assert View().gapped == spec.gapped;
      assert View().pending == spec.pending;
    }

    static method SequenceRange(playlist: seq<MediaSegment>) returns (minSeq: Uint64, maxSeq: Uint64)
      requires playlist != []
      ensures minSeq == A.MinSequence(playlist) && maxSeq == A.MaxSequence(playlist)
    {
      minSeq, maxSeq := playlist[0].sequence, playlist[0].sequence;
      for i := 1 to |playlist|
        invariant minSeq == A.MinSequence(playlist[..i]) && maxSeq == A.MaxSequence(playlist[..i])
      {
        assert playlist[..i + 1][..i] == playlist[..i];
        if playlist[i].sequence < minSeq { minSeq := playlist[i].sequence; }
        if playlist[i].sequence > maxSeq { maxSeq := playlist[i].sequence; }
      }
      assert playlist[..|playlist|] == playlist;
    }

    /** observePlaylistAtGeneration on the cloned recording. A false result is
        the epoch overflow error, after which the clone is discarded. */
    method ObservePlaylist(playlist: seq<MediaSegment>, protected: set<Key>) returns (ok: bool)
      requires Valid()
      modifies this
      ensures Valid() && (PairwiseApart(old(gaps)) ==> PairwiseApart(gaps)) && segments == old(segments)
      ensures var changed := SomeIdentityChanged(old(segments), old(sourceEpoch), playlist);
        var observed := A.Observe(old(View()), playlist, protected, changed);
        ok == observed.Some? && (ok ==> View() == observed.value)
      ensures var resets := OfNewSource(old(segments), old(sourceEpoch), old(hasLast), old(last), playlist);
        ok == (resets ==> old(sourceEpoch) < MAX_UINT64) && (ok ==> sourceEpoch == old(sourceEpoch) + if resets then 1 else 0)
    {
      if |playlist| == 0 { return true; }
      ResetMeans(segments, sourceEpoch, hasLast, last, playlist);
      var minSeq, maxSeq := SequenceRange(playlist);
      var sequenceReset := DetectsReset(playlist, maxSeq);
      if sequenceReset {
        ok := EndEpoch(protected);
        if !ok { return; }
      }
      ObserveInEpoch(playlist, minSeq, maxSeq, protected);
      return true;
    }

    /** The source was reset: the epoch's pending objects become gaps and the next one begins. */
    method EndEpoch(protected: set<Key>) returns (ok: bool)
      requires Valid()
      modifies this
      ensures Valid() && (PairwiseApart(old(gaps)) ==> PairwiseApart(gaps)) && segments == old(segments)
      ensures ok <==> old(sourceEpoch) < MAX_UINT64
      ensures ok ==> View() == A.StartEpoch(old(View()), protected)
    {
      FinalizePendingEpochExcept(sourceEpoch, "source sequence reset before pending media was captured", protected);
      if sourceEpoch == MAX_UINT64 { return false; }
      sourceEpoch := sourceEpoch + 1;
      hasLast := false;
      assert View() == A.StartEpoch(old(View()), protected);
      return true;
    }

    /** gapCoversEpoch */
    method GapCoversEpoch(epoch: Uint64, sequence: Uint64) returns (covered: bool)
      ensures covered <==> Key(epoch, sequence) in View().gapped
    {
      for i := 0 to |gaps|
        invariant forall j | 0 <= j < i :: !Covers(gaps[j], MAIN_TRACK, epoch, sequence)
      {
        var g := gaps[i];
        if g.trackId == MAIN_TRACK && g.epoch == epoch && sequence >= g.from && sequence <= g.to {
          assert Covers(gaps[i], MAIN_TRACK, epoch, sequence);
          return true;
        }
      }
      return false;
    }

    /** The first entry of the playlist that `epoch` has neither archived nor
        covered by a gap. */
    method FirstUncommitted(epoch: Uint64, playlist: seq<MediaSegment>) returns (next: Option<MediaSegment>)
      ensures next == A.FirstFresh(View().(epoch := epoch), playlist)
    {
      ghost var l := View().(epoch := epoch);
      for i := 0 to |playlist|
        invariant A.FirstFresh(l, playlist) == A.FirstFresh(l, playlist[i..])
      {
        var incoming := playlist[i];
        assert playlist[i..] == [incoming] + playlist[i + 1..];
        var covered := GapCoversEpoch(epoch, incoming.sequence);
        var captured := HasSequence(epoch, incoming.sequence);
        if !incoming.gap && !covered && !captured { return Some(incoming); }
      }
      return None;
    }

    /** The inner loop of findHandoverCandidate's reset test: it stops at the first
        archived match, whatever that says. */
    method FirstMatchChanged(incoming: MediaSegment) returns (changed: bool)
      ensures changed <==> MatchChanged(segments, sourceEpoch, incoming)
    {
      for i := 0 to |segments|
        invariant forall h | 0 <= h < i :: !Matches(segments[h], sourceEpoch, incoming.sequence)
      {
        if segments[i].epoch != sourceEpoch || segments[i].sequence != incoming.sequence { continue; }
        OnlyFirstMatch(segments, sourceEpoch, incoming, i);
        return HandoverSourceIdentityChanged(segments[i], incoming);
      }
      return false;
    }

    /** The outer loop of that test. */
    method AnyMatchChanged(playlist: seq<MediaSegment>) returns (changed: bool)
      ensures changed <==> SomeMatchChanged(segments, sourceEpoch, playlist)
    {
      for p := 0 to |playlist|
        invariant forall i | 0 <= i < p :: !MatchChanged(segments, sourceEpoch, playlist[i])
      {
        changed := FirstMatchChanged(playlist[p]);
        if changed { return; }
      }
      return false;
    }

    /** The reset test of findHandoverCandidate. */
    method DetectsNewEpoch(playlist: seq<MediaSegment>, maxSequence: Uint64) returns (newEpoch: bool)
      requires playlist != [] && maxSequence == A.MaxSequence(playlist)
      ensures newEpoch <==> A.Resets(hasLast, last, playlist, SomeMatchChanged(segments, sourceEpoch, playlist))
    {
      newEpoch := hasLast && maxSequence < last;
      if !newEpoch { newEpoch := AnyMatchChanged(playlist); }
    }

    /** findHandoverCandidate */
    method FindHandoverCandidate(playlist: seq<MediaSegment>) returns (candidate: Option<(Uint64, MediaSegment)>)
      ensures candidate == A.Preflight(View(), playlist, SomeMatchChanged(segments, sourceEpoch, playlist))
      ensures candidate.Some? ==> candidate.value.0 == sourceEpoch + (if OfNewSource(segments, sourceEpoch, hasLast, last, playlist) then 1 else 0)
    {
      if |playlist| == 0 { return None; }
      ResetMeans(segments, sourceEpoch, hasLast, last, playlist);
      var _, maxSequence := SequenceRange(playlist);
      var newEpoch := DetectsNewEpoch(playlist, maxSequence);
      var epoch := sourceEpoch;
      if newEpoch {
        if epoch == MAX_UINT64 { return None; }
        epoch := epoch + 1;
      }
      var next := FirstUncommitted(epoch, playlist);
      if next == None { return None; }
      return Some((epoch, next.value));
    }
  }

  lemma OnlyFirstMatch(segments: seq<Segment>, epoch: Uint64, incoming: MediaSegment, i: nat)
    requires FirstMatch(segments, epoch, incoming.sequence, i)
    ensures MatchChanged(segments, epoch, incoming) <==> HandoverSourceIdentityChanged(segments[i], incoming)
  {
    assert forall j: nat | FirstMatch(segments, epoch, incoming.sequence, j) :: j == i;
  }

  lemma NothingFinalized(l: A.Ledger, epochs: set<Uint64>)
    requires forall k | k in l.pending :: k.epoch in epochs
    ensures A.FinalizeOutside(l, epochs) == l
  {
    assert A.FinalizeOutside(l, epochs).pending == l.pending;
    assert A.FinalizeOutside(l, epochs).gapped == l.gapped;
  }

  lemma OneMoreFinalized(l: A.Ledger, epochs: set<Uint64>, epoch: Uint64)
    requires epoch in epochs
    ensures A.FinalizeEpoch(A.FinalizeOutside(l, epochs), epoch, {}) == A.FinalizeOutside(l, epochs - {epoch})
  {
    var m, n := A.FinalizeEpoch(A.FinalizeOutside(l, epochs), epoch, {}), A.FinalizeOutside(l, epochs - {epoch});
    assert m.pending == n.pending;
    assert m.gapped == n.gapped;
  }

  lemma GapAppended(gaps: seq<Gap>, gap: Gap, rest: seq<Gap>)
    ensures gaps + ([gap] + rest) == (gaps + [gap]) + rest
  {
  }

  /** One round of the sweep: what it appends, and where it goes on. */
  lemma SweepRound(gaps: seq<Gap>, blocked: seq<Interval>, i: nat, cursor: Uint64, to: Uint64, epoch: Uint64, reason: string, all: seq<Gap>)
    requires i < |blocked| && cursor <= to && gaps + UncoveredFrom(blocked, i, cursor, to, epoch, reason) == all
    ensures var item := blocked[i];
      if item.end < cursor then gaps + UncoveredFrom(blocked, i + 1, cursor, to, epoch, reason) == all
      else (if item.start > cursor then gaps + [Gap(MAIN_TRACK, epoch, cursor, item.start - 1, reason)] else gaps)
             + UncoveredFrom(blocked, i + 1, item.end + 1, to, epoch, reason) == all
  {
    var item, rest := blocked[i], UncoveredFrom(blocked, i + 1, blocked[i].end + 1, to, epoch, reason);
    assert [] + rest == rest;
    if item.start > cursor { GapAppended(gaps, Gap(MAIN_TRACK, epoch, cursor, item.start - 1, reason), rest); }
  }

  lemma SweepEnds(gaps: seq<Gap>, blocked: seq<Interval>, i: nat, cursor: nat, to: Uint64, epoch: Uint64, reason: string)
    requires i <= |blocked|
    ensures cursor > to ==> gaps + UncoveredFrom(blocked, i, cursor, to, epoch, reason) == gaps
  {
  }

  lemma {:induction false} FirstCapturedAppended(segments: seq<Segment>, x: Segment, epoch: Uint64, q: Uint64)
    ensures FirstCaptured(segments + [x], epoch, q) ==
      if FirstCaptured(segments, epoch, q).Some? then FirstCaptured(segments, epoch, q)
      else if x.epoch == epoch && x.sequence == q then Some(x) else None
  {
    if segments == [] {
      assert segments + [x] == [x];
    } else {
      assert (segments + [x])[1..] == segments[1..] + [x];
      FirstCapturedAppended(segments[1..], x, epoch, q);
    }
  }
}
