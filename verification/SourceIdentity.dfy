/** Signed URLs change with every refresh of a playlist. What identifies a source object
    is its resource, so neither observation nor preflight may notice. */
module SourceIdentity {
  import opened Archive
  import opened Gaps
  import opened Recording
  import A = Accounting

  /** The same resource, or none on both sides; queries and signatures may differ. */
  predicate SameResource(u: Uri, v: Uri) {
    if u == NoUri then v == NoUri else v != NoUri && u.resource == v.resource
  }

  predicate Resigned(e: MediaSegment, f: MediaSegment) { f == e.(uri := f.uri) && SameResource(e.uri, f.uri) }

  predicate ResignedPlaylist(p: seq<MediaSegment>, q: seq<MediaSegment>) {
    |p| == |q| && forall i | 0 <= i < |p| :: Resigned(p[i], q[i])
  }

  predicate ResignedArchive(s: seq<Segment>, t: seq<Segment>) {
    |s| == |t| && forall i | 0 <= i < |s| :: t[i] == s[i].(uri := t[i].uri) && SameResource(s[i].uri, t[i].uri)
  }

  lemma SameSequences(p: seq<MediaSegment>, q: seq<MediaSegment>)
    requires ResignedPlaylist(p, q) && p != []
    ensures A.MaxSequence(p) == A.MaxSequence(q) && A.MinSequence(p) == A.MinSequence(q)
    ensures forall x: Uint64 :: (A.Present(p, x) <==> A.Present(q, x)) && (A.GapMarked(p, x) <==> A.GapMarked(q, x))
  {
    assert forall i | 0 <= i < |p| :: p[i].sequence == q[i].sequence && p[i].gap == q[i].gap;
  }

  lemma SameSkipped(p: seq<MediaSegment>, q: seq<MediaSegment>, x: Uint64)
    requires ResignedPlaylist(p, q)
    ensures A.Skipped(p, x) <==> A.Skipped(q, x)
  {
    assert forall i | 0 <= i < |p| :: p[i].sequence == q[i].sequence;
  }

  lemma SameMissing(l: A.Ledger, p: seq<MediaSegment>, q: seq<MediaSegment>, protected: set<Key>, k: Key)
    requires ResignedPlaylist(p, q) && p != []
    ensures A.Missing(l, p, protected, k) <==> A.Missing(l, q, protected, k)
  {
    SameSequences(p, q);
    SameSkipped(p, q, k.sequence);
    assert A.Present(p, k.sequence) <==> A.Present(q, k.sequence);
  }

  lemma SameGapped(l: A.Ledger, p: seq<MediaSegment>, q: seq<MediaSegment>, protected: set<Key>)
    requires ResignedPlaylist(p, q) && p != []
    ensures A.ObserveInEpoch(l, p, protected).gapped == A.ObserveInEpoch(l, q, protected).gapped
  {
    forall k ensures A.Missing(l, p, protected, k) <==> A.Missing(l, q, protected, k) { SameMissing(l, p, q, protected, k); }
  }

  lemma SamePending(l: A.Ledger, p: seq<MediaSegment>, q: seq<MediaSegment>, protected: set<Key>)
    requires ResignedPlaylist(p, q) && p != []
    ensures A.ObserveInEpoch(l, p, protected).pending == A.ObserveInEpoch(l, q, protected).pending
  {
    SameSequences(p, q);
    assert forall k: Key :: A.Present(p, k.sequence) <==> A.Present(q, k.sequence);
  }

  lemma SameObservation(l: A.Ledger, p: seq<MediaSegment>, q: seq<MediaSegment>, protected: set<Key>)
    requires ResignedPlaylist(p, q) && p != []
    ensures A.ObserveInEpoch(l, p, protected) == A.ObserveInEpoch(l, q, protected)
  {
    SameSequences(p, q);
    SameGapped(l, p, q, protected);
    SamePending(l, p, q, protected);
  }

  lemma SameMatch(s: seq<Segment>, t: seq<Segment>, epoch: Uint64, x: Uint64, j: nat)
    requires ResignedArchive(s, t)
    ensures FirstMatch(s, epoch, x, j) <==> FirstMatch(t, epoch, x, j)
  {
    assert forall h | 0 <= h < |s| :: Matches(s[h], epoch, x) <==> Matches(t[h], epoch, x);
  }

  lemma SameSource(s: seq<Segment>, t: seq<Segment>, epoch: Uint64, hasLast: bool, last: Uint64, p: seq<MediaSegment>, q: seq<MediaSegment>)
    requires ResignedArchive(s, t) && ResignedPlaylist(p, q)
    ensures OfNewSource(s, epoch, hasLast, last, p) <==> OfNewSource(t, epoch, hasLast, last, q)
  {
    assert forall i | 0 <= i < |p| :: p[i].sequence == q[i].sequence;
    forall i, j: nat | 0 <= i < |p| { SameMatch(s, t, epoch, p[i].sequence, j); }
    assert Replaced(s, epoch, p) <==> Replaced(t, epoch, q);
  }

  /** An archive with other signatures says the same about every object. */
  lemma SameLedger(gaps: seq<Gap>, s: seq<Segment>, t: seq<Segment>, pending: seq<Key>, legacy: seq<Uint64>,
                  epoch: Uint64, hasLast: bool, last: Uint64)
    requires ResignedArchive(s, t)
    ensures AsLedger(gaps, s, pending, legacy, epoch, hasLast, last) == AsLedger(gaps, t, pending, legacy, epoch, hasLast, last)
  {
    assert forall i | 0 <= i < |s| :: s[i].epoch == t[i].epoch && s[i].sequence == t[i].sequence;
    forall k: Key
      ensures (exists i | 0 <= i < |s| :: s[i].epoch == k.epoch && s[i].sequence == k.sequence) <==>
        (exists i | 0 <= i < |t| :: t[i].epoch == k.epoch && t[i].sequence == k.sequence)
    {
    }
  }

  /** Observing a playlist with other signatures, over an archive with other signatures,
      gives the same ledger. */
  lemma ObservationIgnoresSignatures(l: A.Ledger, s: seq<Segment>, t: seq<Segment>, p: seq<MediaSegment>, q: seq<MediaSegment>, protected: set<Key>)
    requires ResignedArchive(s, t) && ResignedPlaylist(p, q)
    ensures A.Observe(l, p, protected, SomeIdentityChanged(s, l.epoch, p)) == A.Observe(l, q, protected, SomeIdentityChanged(t, l.epoch, q))
  {
    if p != [] {
      SameSource(s, t, l.epoch, l.hasLast, l.last, p, q);
      ResetMeans(s, l.epoch, l.hasLast, l.last, p);
      ResetMeans(t, l.epoch, l.hasLast, l.last, q);
      SameObservation(l, p, q, protected);
      if l.epoch < MAX_UINT64 { SameObservation(A.StartEpoch(l, protected), p, q, protected); }
    }
  }

  lemma {:induction false} SameFirstFresh(l: A.Ledger, p: seq<MediaSegment>, q: seq<MediaSegment>)
    requires ResignedPlaylist(p, q)
    ensures var x, y := A.FirstFresh(l, p), A.FirstFresh(l, q); x.Some? == y.Some? && (x.Some? ==> Resigned(x.value, y.value))
  {
    if p != [] {
      assert Resigned(p[0], q[0]);
      SameFirstFresh(l, p[1..], q[1..]);
    }
  }

  lemma SamePreflight(l: A.Ledger, p: seq<MediaSegment>, q: seq<MediaSegment>, c: bool, d: bool)
    requires ResignedPlaylist(p, q) && p != [] && (A.Resets(l.hasLast, l.last, p, c) <==> A.Resets(l.hasLast, l.last, q, d))
    ensures var x, y := A.Preflight(l, p, c), A.Preflight(l, q, d);
      x.Some? == y.Some? && (x.Some? ==> x.value.0 == y.value.0 && Resigned(x.value.1, y.value.1))
  {
    if A.Resets(l.hasLast, l.last, p, c) {
      if l.epoch < MAX_UINT64 { SameFirstFresh(l.(epoch := l.epoch + 1), p, q); }
    } else {
      assert l.(epoch := l.epoch) == l;
      SameFirstFresh(l, p, q);
    }
  }

  /** And the preflight picks the same entry of the same epoch. */
  lemma PreflightIgnoresSignatures(l: A.Ledger, s: seq<Segment>, t: seq<Segment>, p: seq<MediaSegment>, q: seq<MediaSegment>)
    requires ResignedArchive(s, t) && ResignedPlaylist(p, q)
    ensures var x, y := A.Preflight(l, p, SomeMatchChanged(s, l.epoch, p)), A.Preflight(l, q, SomeMatchChanged(t, l.epoch, q));
      x.Some? == y.Some? && (x.Some? ==> x.value.0 == y.value.0 && Resigned(x.value.1, y.value.1))
  {
    if p != [] {
      SameSource(s, t, l.epoch, l.hasLast, l.last, p, q);
      ResetMeans(s, l.epoch, l.hasLast, l.last, p);
      ResetMeans(t, l.epoch, l.hasLast, l.last, q);
      SamePreflight(l, p, q, SomeMatchChanged(s, l.epoch, p), SomeMatchChanged(t, l.epoch, q));
    }
  }
}
