/** What a recording says about each source object: archived, covered by a gap,
    or pending. This is the specification of the edits in Recording.dfy and the
    recording half of the acquisition machine. */
module Accounting {
  import opened Archive

  datatype Ledger = Ledger(
    epoch: Uint64, hasLast: bool, last: Uint64,
    captured: iset<Key>, gapped: iset<Key>, pending: iset<Key>)

  function MaxSequence(playlist: seq<MediaSegment>): (m: Uint64)
    requires playlist != []
    ensures forall i | 0 <= i < |playlist| :: playlist[i].sequence <= m
    ensures exists i | 0 <= i < |playlist| :: playlist[i].sequence == m
  {
    var n := |playlist| - 1;
    if n == 0 then playlist[0].sequence
    else
      var rest := MaxSequence(playlist[..n]);
      assert forall i | 0 <= i < n :: playlist[..n][i] == playlist[i];
      if playlist[n].sequence > rest then playlist[n].sequence else rest
  }

  function MinSequence(playlist: seq<MediaSegment>): (m: Uint64)
    requires playlist != []
    ensures forall i | 0 <= i < |playlist| :: m <= playlist[i].sequence
    ensures exists i | 0 <= i < |playlist| :: playlist[i].sequence == m
  {
    var n := |playlist| - 1;
    if n == 0 then playlist[0].sequence
    else
      var rest := MinSequence(playlist[..n]);
      assert forall i | 0 <= i < n :: playlist[..n][i] == playlist[i];
      if playlist[n].sequence < rest then playlist[n].sequence else rest
  }

  predicate Present(playlist: seq<MediaSegment>, q: Uint64) {
    exists i | 0 <= i < |playlist| :: playlist[i].sequence == q
  }

  predicate GapMarked(playlist: seq<MediaSegment>, q: Uint64) {
    exists i | 0 <= i < |playlist| :: playlist[i].gap && playlist[i].sequence == q
  }

  /** Left out between two neighbouring playlist entries. */
  predicate Skipped(playlist: seq<MediaSegment>, q: Uint64) {
    exists i | 0 < i < |playlist| :: playlist[i - 1].sequence < q < playlist[i].sequence
  }

  /** What the parser produces: sequences count up by one. */
  predicate Consecutive(playlist: seq<MediaSegment>) {
    forall i | 0 <= i < |playlist| :: playlist[i].sequence == playlist[0].sequence + i
  }

  /** addMissingRanges on the one sequence `q`. */
  ghost function MarkGap(l: Ledger, k: Key): Ledger {
    l.(gapped := if k in l.captured then l.gapped else l.gapped + iset{k}, pending := l.pending - iset{k})
  }

  ghost function MarkPending(l: Ledger, k: Key): Ledger {
    l.(pending := l.pending + iset{k})
  }

  /** A segment commit: the object is archived and no longer pending. */
  ghost function Capture(l: Ledger, k: Key): Ledger {
    l.(captured := l.captured + iset{k}, pending := l.pending - iset{k})
  }

  /** The inventory kept when a stop interrupts discovery. */
  ghost function MarkRemainingPending(l: Ledger, epoch: Uint64, playlist: seq<MediaSegment>): Ledger {
    l.(pending := l.pending + iset k: Key |
      k.epoch == epoch && k !in l.captured &&
      exists i | 0 <= i < |playlist| :: !playlist[i].gap && playlist[i].sequence == k.sequence)
  }

  /** Pending objects of `epoch` outside `protected` become gaps. */
  ghost function FinalizeEpoch(l: Ledger, epoch: Uint64, protected: set<Key>): Ledger {
    var dropped := iset k: Key | k in l.pending && k.epoch == epoch && k !in protected;
    l.(gapped := l.gapped + (dropped - l.captured), pending := l.pending - dropped)
  }

  /** Pending objects of every epoch outside `kept` become gaps. */
  ghost function FinalizeOutside(l: Ledger, kept: set<Uint64>): Ledger {
    var dropped := iset k: Key | k in l.pending && k.epoch !in kept;
    l.(gapped := l.gapped + (dropped - l.captured), pending := l.pending - dropped)
  }

  ghost function FinalizeAll(l: Ledger): Ledger {
    l.(gapped := l.gapped + (l.pending - l.captured), pending := iset{})
  }

  /** A source sequence reset: the epoch ends and the next one starts empty. */
  ghost function StartEpoch(l: Ledger, protected: set<Key>): (r: Ledger)
    requires l.epoch < MAX_UINT64
  {
    FinalizeEpoch(l, l.epoch, protected).(epoch := l.epoch + 1, hasLast := false)
  }

  /** The playlist's sequences regressed, or an archived object changed its identity. */
  predicate Resets(hasLast: bool, last: Uint64, playlist: seq<MediaSegment>, identityChanged: bool)
    requires playlist != []
  {
    (hasLast && MaxSequence(playlist) < last) || identityChanged
  }

  /** A pending object of the current epoch that has left the live window. */
  ghost predicate LeftWindow(l: Ledger, playlist: seq<MediaSegment>, k: Key)
    requires playlist != []
  {
    k in l.pending && !Present(playlist, k.sequence) && MaxSequence(playlist) > k.sequence
  }

  /** The sequences that one observation of `playlist` shows to be missing. */
  ghost predicate Missing(l: Ledger, playlist: seq<MediaSegment>, protected: set<Key>, k: Key)
    requires playlist != []
  {
    && k.epoch == l.epoch && k !in l.captured && k !in protected
    && (|| GapMarked(playlist, k.sequence)
        || (l.hasLast && l.last < k.sequence < MinSequence(playlist))
        || Skipped(playlist, k.sequence)
        || LeftWindow(l, playlist, k))
  }

  /** The observation proper, once the epoch is settled. */
  ghost function ObserveInEpoch(l: Ledger, playlist: seq<MediaSegment>, protected: set<Key>): Ledger
    requires playlist != []
  {
    var high := MaxSequence(playlist);
    var gone := iset k: Key | k in l.pending && k.epoch == l.epoch && k !in protected &&
      (k in l.captured || (!Present(playlist, k.sequence) && high > k.sequence));
    Ledger(l.epoch, true, if !l.hasLast || high > l.last then high else l.last, l.captured,
      l.gapped + (iset k: Key | Missing(l, playlist, protected, k)), l.pending - gone)
  }

  /** observePlaylistAtGeneration; None is the epoch overflow error. */
  ghost function Observe(l: Ledger, playlist: seq<MediaSegment>, protected: set<Key>, identityChanged: bool): Option<Ledger> {
    if playlist == [] then Some(l)
    else if Resets(l.hasLast, l.last, playlist, identityChanged) then
      if l.epoch == MAX_UINT64 then None
      else Some(ObserveInEpoch(StartEpoch(l, protected), playlist, protected))
    else Some(ObserveInEpoch(l, playlist, protected))
  }

  /** The first entry that discovery would enqueue: neither marked as a gap nor
      archived nor covered by a gap in the current epoch. */
  ghost function FirstFresh(l: Ledger, playlist: seq<MediaSegment>): Option<MediaSegment> {
    if playlist == [] then None
    else if playlist[0].gap || Key(l.epoch, playlist[0].sequence) in l.captured + l.gapped then FirstFresh(l, playlist[1..])
    else Some(playlist[0])
  }

  /** findHandoverCandidate: the epoch and entry a target Engine continues with,
      decided without observing the playlist. */
  ghost function Preflight(l: Ledger, playlist: seq<MediaSegment>, identityChanged: bool): Option<(Uint64, MediaSegment)> {
    if playlist == [] then None
    else if Resets(l.hasLast, l.last, playlist, identityChanged) && l.epoch == MAX_UINT64 then None
    else
      var epoch := if Resets(l.hasLast, l.last, playlist, identityChanged) then l.epoch + 1 else l.epoch;
      var next := FirstFresh(l.(epoch := epoch), playlist);
      if next == None then None else Some((epoch, next.value))
  }

  lemma {:induction false} FreshByMembership(l: Ledger, m: Ledger, playlist: seq<MediaSegment>)
    requires l.epoch == m.epoch
    requires forall i | 0 <= i < |playlist| && !playlist[i].gap :: var k := Key(l.epoch, playlist[i].sequence);
      k in l.captured + l.gapped <==> k in m.captured + m.gapped
    ensures FirstFresh(l, playlist) == FirstFresh(m, playlist)
  {
    if playlist != [] {
      assert forall i | 0 <= i < |playlist| - 1 :: playlist[1..][i] == playlist[i + 1];
      FreshByMembership(l, m, playlist[1..]);
    }
  }

  /** Observation never declares an offered entry of a parsed playlist missing. */
  lemma OfferedIsNotMissing(l: Ledger, playlist: seq<MediaSegment>, protected: set<Key>, i: nat)
    requires Consecutive(playlist) && i < |playlist| && !playlist[i].gap
    ensures !Missing(l, playlist, protected, Key(l.epoch, playlist[i].sequence))
  {
  }

  /** The read-only preflight and the stateful path agree: with no live task, the
      candidate is exactly what observation leaves for discovery to enqueue
      first, and there is none exactly when there is nothing to enqueue. */
  lemma PreflightAgrees(l: Ledger, playlist: seq<MediaSegment>, identityChanged: bool)
    requires Consecutive(playlist)
    ensures var observed := Observe(l, playlist, {}, identityChanged);
      Preflight(l, playlist, identityChanged) ==
        if observed == None then None
        else
          var next := FirstFresh(observed.value, playlist);
          if next == None then None else Some((observed.value.epoch, next.value))
  {
    if playlist == [] || Observe(l, playlist, {}, identityChanged) == None { return; }
    var settled := if Resets(l.hasLast, l.last, playlist, identityChanged) then StartEpoch(l, {}) else l;
    var observed := ObserveInEpoch(settled, playlist, {});
    forall i | 0 <= i < |playlist| && !playlist[i].gap
      ensures var k := Key(observed.epoch, playlist[i].sequence);
        k in l.captured + l.gapped <==> k in observed.captured + observed.gapped
    {
      OfferedIsNotMissing(settled, playlist, {}, i);
    }
    FreshByMembership(l.(epoch := observed.epoch), observed, playlist);
  }

  // What an edit does, object by object --------------------------------------------------------

  /** A gap, a pending mark, and an archived object x, as any object k sees them. */
  lemma {:induction false} EditedObject(l: Ledger, x: Key, k: Key)
    ensures var m := MarkGap(l, x);
      && (k in m.gapped <==> k in l.gapped || (k == x && k !in l.captured)) && (k in m.pending <==> k in l.pending && k != x)
      && m == l.(gapped := m.gapped, pending := m.pending)
    ensures var m := MarkPending(l, x); (k in m.pending <==> k in l.pending || k == x) && m == l.(pending := m.pending)
    ensures var m := Capture(l, x);
      && (k in m.captured <==> k in l.captured || k == x) && (k in m.pending <==> k in l.pending && k != x)
      && m == l.(captured := m.captured, pending := m.pending)
  {
  }

  /** The end of an epoch, and of all: what was pending is a gap unless it is archived. */
  lemma {:induction false} FinalizedObject(l: Ledger, epoch: Uint64, protected: set<Key>, k: Key)
    ensures var m := FinalizeEpoch(l, epoch, protected);
      && (k in m.gapped <==> k in l.gapped || (k in l.pending && k.epoch == epoch && k !in protected && k !in l.captured))
      && (k in m.pending <==> k in l.pending && (k.epoch != epoch || k in protected)) && m == l.(gapped := m.gapped, pending := m.pending)
    ensures var m := FinalizeAll(l);
      && (k in m.gapped <==> k in l.gapped || (k in l.pending && k !in l.captured)) && k !in m.pending
      && m == l.(gapped := m.gapped, pending := m.pending)
  {
  }

  /** The inventory of an interrupted playlist. */
  lemma {:induction false} InventoriedObject(l: Ledger, epoch: Uint64, playlist: seq<MediaSegment>, k: Key)
    ensures var m := MarkRemainingPending(l, epoch, playlist);
      && (k in m.pending <==> k in l.pending || (k.epoch == epoch && k !in l.captured
                              && exists i | 0 <= i < |playlist| :: playlist[i].sequence == k.sequence && !playlist[i].gap))
      && m == l.(pending := m.pending)
  {
  }

  // What one observation does, object by object ---------------------------------------------------

  /** The playlist begins a new epoch. */
  predicate Begins(l: Ledger, playlist: seq<MediaSegment>, identityChanged: bool) {
    identityChanged || (l.hasLast && forall i | 0 <= i < |playlist| :: playlist[i].sequence < l.last)
  }

  /** The playlist left the object behind: it does not list it, and lists a later one. */
  predicate LeftBehind(playlist: seq<MediaSegment>, q: Uint64) {
    (forall i | 0 <= i < |playlist| :: playlist[i].sequence != q) && exists i | 0 <= i < |playlist| :: playlist[i].sequence > q
  }

  /** The playlist marks the object as a gap, or skips it. */
  predicate MarkedOrSkipped(playlist: seq<MediaSegment>, q: Uint64) {
    || (exists i | 0 <= i < |playlist| :: playlist[i].gap && playlist[i].sequence == q)
    || (exists i | 0 < i < |playlist| :: playlist[i - 1].sequence < q < playlist[i].sequence)
  }

  /** It fell between the last object observed before and all entries of the playlist. */
  predicate Jumped(l: Ledger, playlist: seq<MediaSegment>, q: Uint64) {
    l.hasLast && l.last < q && forall i | 0 <= i < |playlist| :: q < playlist[i].sequence
  }

  lemma {:induction false} BeginsIs(l: Ledger, playlist: seq<MediaSegment>, identityChanged: bool)
    requires playlist != []
    ensures Begins(l, playlist, identityChanged) <==> Resets(l.hasLast, l.last, playlist, identityChanged)
  {
  }

  lemma {:induction false} LeftBehindIs(playlist: seq<MediaSegment>, q: Uint64)
    requires playlist != []
    ensures LeftBehind(playlist, q) <==> !Present(playlist, q) && MaxSequence(playlist) > q
  {
  }

  /** An observation fails only if a new epoch would overflow; otherwise the playlist's epoch is
      the next or the present one, and the last sequence is the highest that it lists, unless a
      higher one was observed in the same epoch. Nothing becomes unarchived. */
  lemma {:induction false} ObservedEpoch(l: Ledger, playlist: seq<MediaSegment>, protected: set<Key>, identityChanged: bool)
    requires playlist != []
    ensures var r, begins := Observe(l, playlist, protected, identityChanged), Begins(l, playlist, identityChanged);
      && (r == None <==> begins && l.epoch == MAX_UINT64)
      && (r.Some? ==>
            && r.value.epoch == (if begins then l.epoch + 1 else l.epoch) && r.value.hasLast && r.value.captured == l.captured
            && (forall i | 0 <= i < |playlist| :: playlist[i].sequence <= r.value.last)
            && (!begins && l.hasLast ==> l.last <= r.value.last)
            && ((exists i | 0 <= i < |playlist| :: playlist[i].sequence == r.value.last) || (!begins && l.hasLast && r.value.last == l.last)))
  {
    BeginsIs(l, playlist, identityChanged);
  }

  /** What one observation does to an object. It becomes a gap if it was pending in an epoch that
      has ended, or if the playlist marks it, skips it, jumps over it, or left it behind while it
      was pending; what is archived or protected by a task never does. It stops being pending
      with its epoch, and when it is archived or left behind. */
  lemma {:induction false} ObservedObject(l: Ledger, playlist: seq<MediaSegment>, protected: set<Key>, identityChanged: bool, k: Key)
    requires playlist != [] && Observe(l, playlist, protected, identityChanged).Some?
    ensures var m, begins := Observe(l, playlist, protected, identityChanged).value, Begins(l, playlist, identityChanged);
      && (k in m.gapped <==>
            || k in l.gapped
            || (k !in l.captured && k !in protected && begins && k.epoch == l.epoch && k in l.pending)
            || (k !in l.captured && k !in protected && k.epoch == m.epoch &&
                (|| MarkedOrSkipped(playlist, k.sequence) || (!begins && Jumped(l, playlist, k.sequence))
                 || (k in l.pending && LeftBehind(playlist, k.sequence)))))
      && (k in m.pending <==>
            && k in l.pending
            && (k in protected ||
                !((begins && k.epoch == l.epoch)
                  || (k.epoch == m.epoch && (k in l.captured || LeftBehind(playlist, k.sequence))))))
  {
    BeginsIs(l, playlist, identityChanged);
    LeftBehindIs(playlist, k.sequence);
    var begun := if Begins(l, playlist, identityChanged) then StartEpoch(l, protected) else l;
    assert Observe(l, playlist, protected, identityChanged).value == ObserveInEpoch(begun, playlist, protected);
    assert k in begun.pending <==> k in l.pending && (k in protected || !Begins(l, playlist, identityChanged) || k.epoch != l.epoch);
    assert Missing(begun, playlist, protected, k) <==>
      (&& k.epoch == begun.epoch && k !in l.captured && k !in protected
       && (|| MarkedOrSkipped(playlist, k.sequence) || (begun.hasLast && Jumped(l, playlist, k.sequence))
           || (k in begun.pending && LeftBehind(playlist, k.sequence))));
  }

  /** Marked as a gap, archived, or covered by a gap of the epoch. */
  ghost predicate Taken(l: Ledger, entry: MediaSegment) {
    entry.gap || Key(l.epoch, entry.sequence) in l.captured || Key(l.epoch, entry.sequence) in l.gapped
  }

  /** Entry i is the first one that is not taken. */
  ghost predicate Leads(l: Ledger, playlist: seq<MediaSegment>, i: nat) {
    i < |playlist| && !Taken(l, playlist[i]) && forall j | 0 <= j < i :: Taken(l, playlist[j])
  }

  /** The entry that a target continues with is the first one that is not taken. */
  lemma {:induction false} FreshMeans(l: Ledger, playlist: seq<MediaSegment>)
    ensures if FirstFresh(l, playlist) == None then forall i | 0 <= i < |playlist| :: Taken(l, playlist[i])
            else exists i: nat :: Leads(l, playlist, i) && FirstFresh(l, playlist) == Some(playlist[i])
  {
    if playlist != [] {
      FreshMeans(l, playlist[1..]);
      if !Taken(l, playlist[0]) {
        assert Leads(l, playlist, 0);
      } else if FirstFresh(l, playlist[1..]) != None {
        var i: nat :| Leads(l, playlist[1..], i) && FirstFresh(l, playlist[1..]) == Some(playlist[1..][i]);
        forall j | 0 <= j < i + 1 ensures Taken(l, playlist[j]) { if j > 0 { assert playlist[1..][j - 1] == playlist[j]; } }
        assert Leads(l, playlist, i + 1);
      } else {
        assert forall j | 0 < j < |playlist| :: playlist[j] == playlist[1..][j - 1];
      }
    }
  }
}
