/** persistSegment: the imperative publication of one segment. Every storage
    write may fail; the track, its next ordinal and the scheduler's marker
    table move together or not at all. */
module Publication {
  import opened Archive
  import opened Commits

  class TrackDoc {
    var segments: seq<Segment>
    var next: Uint64
    var markers: map<Uint64, Marker>
    /** The durable copy of each segment's metadata, by storage path. */
    var sidecars: map<Uint64, Segment>

    predicate Valid() reads this { Ordered(segments) }

    function View(): Track reads this { Track(segments, next, markers) }

    method FindMarker(epoch: Uint64) returns (marker: Option<Marker>)
      ensures marker == CurrentMarker(View(), epoch)
    {
      if epoch in markers { return Some(markers[epoch]); }
      marker := None;
      for i := 0 to |segments|
        invariant marker == LowestInEpoch(segments[..i], epoch)
      {
        assert segments[..i + 1][..i] == segments[..i];
        var candidate := segments[i];
        if candidate.epoch == epoch && (marker == None || marker.value.ordinal == 0 || candidate.ordinal < marker.value.ordinal) {
          marker := Some(Marker(candidate.ordinal, candidate.discontinuity));
        }
      }
      assert segments[..|segments|] == segments;
    }

    /** The segment that loses the marker, with its source flag back. */
    method PreviousUpdate(epoch: Uint64, marker: Marker) returns (previous: Option<Segment>)
      requires Valid()
      ensures previous == None ==> Restore(segments, epoch, marker) == segments
      ensures previous.Some? ==> exists i | 0 <= i < |segments| ::
        && IdOf(segments[i]) == IdOf(previous.value)
        && previous.value == segments[i].(discontinuity := marker.sourceDiscontinuity)
        && Restore(segments, epoch, marker) == segments[i := previous.value]
    {
      for i := 0 to |segments|
        invariant forall j | 0 <= j < i :: segments[j].epoch != epoch || segments[j].ordinal != marker.ordinal
      {
        var candidate := segments[i];
        if candidate.epoch == epoch && candidate.ordinal == marker.ordinal {
          candidate := candidate.(discontinuity := marker.sourceDiscontinuity);
          assert Restore(segments, epoch, marker) == segments[i := candidate];
          return Some(candidate);
        }
      }
      assert Restore(segments, epoch, marker) == segments;
      return None;
    }

    method Replace(previous: Segment)
      requires Valid()
      modifies this`segments
      ensures forall i | 0 <= i < |old(segments)| && IdOf(old(segments)[i]) == IdOf(previous) ::
        segments == old(segments)[i := old(segments)[i].(discontinuity := previous.discontinuity)]
    {
      for i := 0 to |segments|
        invariant segments == old(segments)
        invariant forall j | 0 <= j < i :: IdOf(segments[j]) != IdOf(previous)
      {
        if IdOf(segments[i]) == IdOf(previous) {
          segments := segments[i := segments[i].(discontinuity := previous.discontinuity)];
          return;
        }
      }
    }

    /** What the epoch marker makes of the incoming segment, of the segment that
        carried the marker so far, and of the marker table. */
    method PlanMarker(incoming: Segment) returns (segment: Segment, previous: Option<Segment>, planned: Option<Marker>)
      requires Valid()
      ensures segment == AsCommitted(View(), incoming)
      ensures Rewrites(segments, previous, EarlierSegments(View(), incoming))
      ensures MarkersAfter(View(), incoming) == if planned.Some? then markers[incoming.epoch := planned.value] else markers
    {
      segment, previous, planned := incoming, None, None;
      if segment.epoch > 0 {
        var marker := FindMarker(segment.epoch);
        if marker == None || segment.ordinal < marker.value.ordinal {
          if marker.Some? { previous := PreviousUpdate(segment.epoch, marker.value); }
          segment := segment.(discontinuity := true);
          planned := Some(Marker(segment.ordinal, incoming.discontinuity));
        } else {
          planned := marker;
        }
      }
    }

    /** The root update: runs on a copy that an error discards. */
    method Publish(segment: Segment, previous: Option<Segment>, ghost earlier: seq<Segment>) returns (ok: bool)
      requires Valid() && Rewrites(segments, previous, earlier)
      modifies this`segments, this`next
      ensures ok == !Overflows(old(View()), segment)
      ensures !ok || HasKey(old(segments), segment.epoch, segment.sequence) ==> segments == old(segments) && next == old(next)
      ensures ok && !HasKey(old(segments), segment.epoch, segment.sequence) ==>
        next == NextAfter(old(next), segment) && segments == Sort(earlier + [segment])
    {
      for i := 0 to |segments|
        invariant segments == old(segments) && next == old(next)
        invariant forall j | 0 <= j < i :: segments[j].epoch != segment.epoch || segments[j].sequence != segment.sequence
      {
        if segments[i].epoch == segment.epoch && segments[i].sequence == segment.sequence { return true; }
      }
      var before := segments;
      if previous.Some? { Replace(previous.value); }
      assert segments == earlier;
      segments := Sort(segments + [segment]);
      if segment.ordinal >= next {
        if segment.ordinal == MAX_UINT64 {
          segments := before;
          return false;
        }
        next := segment.ordinal + 1;
      }
      return true;
    }

    /** persistSegment. The four flags say which durable writes succeed. */
    method PersistSegment(incoming: Segment, payloadSaved: bool, sidecarSaved: bool, previousSaved: bool, rootSaved: bool)
      returns (ok: bool)
      requires Valid()
      modifies this
      ensures ok ==> payloadSaved && sidecarSaved && rootSaved && !Overflows(old(View()), incoming)
      ensures payloadSaved && sidecarSaved && previousSaved && rootSaved ==> ok == !Overflows(old(View()), incoming)
      ensures View() == if ok then Commit(old(View()), incoming) else old(View())
      ensures Publishes(old(View()), incoming) ==> Valid()
      ensures ok && Publishes(old(View()), incoming) && SidecarsAgree(old(sidecars), old(segments)) ==> SidecarsAgree(sidecars, segments)
    {
      ghost var before := View();
      ghost var earlier := EarlierSegments(before, incoming);
      if Publishes(before, incoming) { CommitKeepsOrder(before, incoming); }
      if !payloadSaved { return false; }
      var segment, previous, planned := PlanMarker(incoming);
      if !sidecarSaved { return false; }
      sidecars := sidecars[IdOf(segment) := segment];
      if previous.Some? {
        if !previousSaved { return false; }
        sidecars := sidecars[IdOf(previous.value) := previous.value];
      }
      if !rootSaved { return false; }
      ok := Publish(segment, previous, earlier);
      if !ok { return; }
      if planned.Some? { markers := markers[segment.epoch := planned.value]; }
      if Publishes(before, incoming) && SidecarsAgree(old(sidecars), before.segments) {
        SidecarsFollow(old(sidecars), before.segments, segment, previous, earlier);
      }
    }
  }

  /** A source object and an ordinal that the track does not have yet. */
  predicate Publishes(t: Track, s: Segment) {
    !HasKey(t.segments, s.epoch, s.sequence) && forall b | b in t.segments :: b.ordinal != s.ordinal
  }

  /** `earlier` is the list with `previous` written back, or the list itself. */
  predicate Rewrites(segments: seq<Segment>, previous: Option<Segment>, earlier: seq<Segment>) {
    if previous == None then earlier == segments
    else exists i | 0 <= i < |segments| ::
      && IdOf(segments[i]) == IdOf(previous.value)
      && previous.value == segments[i].(discontinuity := previous.value.discontinuity)
      && earlier == segments[i := previous.value]
  }

  /** Saving the two sidecars makes the durable metadata agree with the new track. */
  lemma SidecarsFollow(sidecars: map<Uint64, Segment>, segments: seq<Segment>, segment: Segment, previous: Option<Segment>, earlier: seq<Segment>)
    requires SidecarsAgree(sidecars, segments) && Ordered(segments) && Rewrites(segments, previous, earlier)
    requires forall s | s in segments :: IdOf(s) != IdOf(segment)
    ensures var saved := sidecars[IdOf(segment) := segment];
      SidecarsAgree(if previous.Some? then saved[IdOf(previous.value) := previous.value] else saved, Sort(earlier + [segment]))
  {
    forall s | s in earlier
      ensures (previous.Some? && s == previous.value) || (s in segments && (previous.Some? ==> IdOf(s) != IdOf(previous.value)))
      ensures IdOf(s) != IdOf(segment)
    {
      var i :| 0 <= i < |earlier| && earlier[i] == s;
      assert segments[i] in segments;
    }
  }
}
