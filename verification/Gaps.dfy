/** Gap intervals: what a list of gaps covers, and the sorted sweep that
    adds the uncovered part of a range. */
module Gaps {
  import opened Archive

  predicate Covers(g: Gap, track: string, epoch: Uint64, q: Uint64) {
    g.trackId == track && g.epoch == epoch && g.from <= q <= g.to
  }

  predicate GapCovers(gaps: seq<Gap>, track: string, epoch: Uint64, q: Uint64) {
    exists i | 0 <= i < |gaps| :: Covers(gaps[i], track, epoch, q)
  }

  /** Every gap is a nonempty interval, as all code that appends one makes it. */
  predicate WellFormed(gaps: seq<Gap>) {
    forall i | 0 <= i < |gaps| :: gaps[i].from <= gaps[i].to
  }

  predicate Apart(a: Gap, b: Gap) {
    a.trackId != b.trackId || a.epoch != b.epoch || a.to < b.from || b.to < a.from
  }

  predicate PairwiseApart(gaps: seq<Gap>) {
    forall i, j | 0 <= i < j < |gaps| :: Apart(gaps[i], gaps[j])
  }

  datatype Interval = Interval(start: Uint64, end: Uint64)

  predicate SortedByStart(s: seq<Interval>) {
    forall i, j | 0 <= i < j < |s| :: s[i].start <= s[j].start
  }

  function InsertByStart(x: Interval, s: seq<Interval>): (r: seq<Interval>)
    requires SortedByStart(s)
    ensures SortedByStart(r)
    ensures |r| == |s| + 1 && forall y :: y in r <==> y == x || y in s
  {
    if s == [] || x.start <= s[0].start then [x] + s
    else
      var rest := InsertByStart(x, s[1..]);
      assert forall y :: y in s <==> y == s[0] || y in s[1..];
      assert forall i | 0 <= i < |rest| :: rest[i] in rest;
      [s[0]] + rest
  }

  /** The library sort: ordered, with the same elements. */
  function SortByStart(s: seq<Interval>): (r: seq<Interval>)
    ensures SortedByStart(r)
    ensures |r| == |s| && forall y :: y in r <==> y in s
  {
    if s == [] then []
    else
      assert forall y :: y in s <==> y == s[0] || y in s[1..];
      InsertByStart(s[0], SortByStart(s[1..]))
  }

  /** A sequence number blocked by some interval of the list. */
  predicate Blocked(s: seq<Interval>, q: Uint64) {
    exists i | 0 <= i < |s| :: s[i].start <= q <= s[i].end
  }

  lemma BlockedByAppended(s: seq<Interval>, x: Interval)
    ensures forall q: Uint64 :: Blocked(s + [x], q) <==> Blocked(s, q) || x.start <= q <= x.end
  {
    var t := s + [x];
    forall q: Uint64 ensures Blocked(t, q) <==> Blocked(s, q) || x.start <= q <= x.end {
      if Blocked(s, q) {
        var i :| 0 <= i < |s| && s[i].start <= q <= s[i].end;
        assert t[i] == s[i];
      }
      assert t[|s|] == x;
    }
  }

  lemma CoversByAppended(gaps: seq<Gap>, more: seq<Gap>)
    ensures forall t, e: Uint64, q: Uint64 ::
      GapCovers(gaps + more, t, e, q) <==> GapCovers(gaps, t, e, q) || GapCovers(more, t, e, q)
  {
    var all := gaps + more;
    forall t, e: Uint64, q: Uint64
      ensures GapCovers(all, t, e, q) <==> GapCovers(gaps, t, e, q) || GapCovers(more, t, e, q)
    {
      if GapCovers(gaps, t, e, q) {
        var i :| 0 <= i < |gaps| && Covers(gaps[i], t, e, q);
        assert Covers(all[i], t, e, q);
      }
      if GapCovers(more, t, e, q) {
        var i :| 0 <= i < |more| && Covers(more[i], t, e, q);
        assert Covers(all[|gaps| + i], t, e, q);
      }
      if GapCovers(all, t, e, q) {
        var i :| 0 <= i < |all| && Covers(all[i], t, e, q);
        assert i < |gaps| ==> Covers(gaps[i], t, e, q);
        assert i >= |gaps| ==> Covers(more[i - |gaps|], t, e, q);
      }
    }
  }

  lemma BlockedBySorting(s: seq<Interval>, t: seq<Interval>, to: nat)
    requires t == SortByStart(s)
    requires forall i | 0 <= i < |s| :: s[i].start <= s[i].end <= to
    ensures forall i | 0 <= i < |t| :: t[i].start <= t[i].end <= to
    ensures forall q: Uint64 :: Blocked(t, q) <==> Blocked(s, q)
  {
    forall i | 0 <= i < |t| ensures t[i].start <= t[i].end <= to {
      assert t[i] in s;
    }
    forall q: Uint64 ensures Blocked(t, q) <==> Blocked(s, q) {
      if Blocked(t, q) { BlockedByMore(t, s, q); }
      if Blocked(s, q) { BlockedByMore(s, t, q); }
    }
  }

  lemma BlockedByMore(s: seq<Interval>, t: seq<Interval>, q: Uint64)
    requires Blocked(s, q) && forall x | x in s :: x in t
    ensures Blocked(t, q)
  {
    var i :| 0 <= i < |s| && s[i].start <= q <= s[i].end;
    assert s[i] in t;
    var j :| 0 <= j < |t| && t[j] == s[i];
  }

  /** The parts of [cursor, to] between sorted blocked intervals, as gaps. */
  function Uncovered(blocked: seq<Interval>, cursor: nat, to: Uint64, epoch: Uint64, reason: string): (r: seq<Gap>) {
    if cursor > to then []
    else if blocked == [] then [Gap(MAIN_TRACK, epoch, cursor, to, reason)]
    else
      var item := blocked[0];
      if item.end < cursor then Uncovered(blocked[1..], cursor, to, epoch, reason)
      else
        (if item.start > cursor then [Gap(MAIN_TRACK, epoch, cursor, item.start - 1, reason)] else []) +
        Uncovered(blocked[1..], item.end + 1, to, epoch, reason)
  }

  /** The same sweep, from interval i on. */
  function UncoveredFrom(blocked: seq<Interval>, i: nat, cursor: nat, to: Uint64, epoch: Uint64, reason: string): (r: seq<Gap>)
    requires i <= |blocked|
    decreases |blocked| - i
  {
    if cursor > to then []
    else if i == |blocked| then [Gap(MAIN_TRACK, epoch, cursor, to, reason)]
    else if blocked[i].end < cursor then UncoveredFrom(blocked, i + 1, cursor, to, epoch, reason)
    else
      (if blocked[i].start > cursor then [Gap(MAIN_TRACK, epoch, cursor, blocked[i].start - 1, reason)] else []) +
      UncoveredFrom(blocked, i + 1, blocked[i].end + 1, to, epoch, reason)
  }

  lemma {:induction false} FromIsUncovered(blocked: seq<Interval>, i: nat, cursor: nat, to: Uint64, epoch: Uint64, reason: string)
    requires i <= |blocked|
    ensures UncoveredFrom(blocked, i, cursor, to, epoch, reason) == Uncovered(blocked[i..], cursor, to, epoch, reason)
    decreases |blocked| - i
  {
    if cursor <= to && i < |blocked| {
      assert blocked[i..][1..] == blocked[i + 1..];
      FromIsUncovered(blocked, i + 1, if blocked[i].end < cursor then cursor else blocked[i].end + 1, to, epoch, reason);
    }
  }

  /** Nonempty gaps of the epoch within [low, high], in order, with at least one
      sequence between two of them. */
  predicate Runs(s: seq<Gap>, low: nat, high: nat, epoch: Uint64) {
    && (forall i | 0 <= i < |s| :: s[i].trackId == MAIN_TRACK && s[i].epoch == epoch && low <= s[i].from <= s[i].to <= high)
    && (forall i, j | 0 <= i < j < |s| :: s[i].to + 1 < s[j].from)
  }

  lemma RunsByConcat(head: seq<Gap>, tail: seq<Gap>, low: nat, item: Interval, high: nat, epoch: Uint64)
    requires low <= item.end && item.start <= item.end <= high && Runs(tail, item.end + 1, high, epoch)
    requires head == [] || (|head| == 1 && Runs(head, low, high, epoch) && head[0].to < item.start)
    ensures Runs(head + tail, low, high, epoch)
  {
    var r := head + tail;
    forall i | 0 <= i < |r|
      ensures r[i].trackId == MAIN_TRACK && r[i].epoch == epoch && low <= r[i].from <= r[i].to <= high
    {
      if i >= |head| { assert r[i] == tail[i - |head|]; }
    }
    forall i, j | 0 <= i < j < |r| ensures r[i].to + 1 < r[j].from {
      assert r[j] == tail[j - |head|];
      if i >= |head| { assert r[i] == tail[i - |head|]; }
    }
  }

  /** The sweep keeps exactly the unblocked sequences, in maximal runs. */
  lemma {:induction false} UncoveredIsExact(blocked: seq<Interval>, cursor: nat, to: Uint64, epoch: Uint64, reason: string)
    requires SortedByStart(blocked)
    requires forall i | 0 <= i < |blocked| :: blocked[i].start <= blocked[i].end <= to
    ensures var r := Uncovered(blocked, cursor, to, epoch, reason);
      && (forall q: Uint64 :: GapCovers(r, MAIN_TRACK, epoch, q) <==> cursor <= q <= to && !Blocked(blocked, q))
      && Runs(r, cursor, to, epoch)
  {
    if cursor > to {
    } else if blocked == [] {
      CoversBySingleton(Gap(MAIN_TRACK, epoch, cursor, to, reason));
    } else if blocked[0].end < cursor {
      BlockedByFirst(blocked);
      UncoveredIsExact(blocked[1..], cursor, to, epoch, reason);
    } else {
      UncoveredIsExact(blocked[1..], blocked[0].end + 1, to, epoch, reason);
      var tail := Uncovered(blocked[1..], blocked[0].end + 1, to, epoch, reason);
      UncoveredStep(blocked, tail, cursor, to, epoch, reason);
    }
  }

  /** A stored gap that ends before it starts breaks this: the sweep over [0, 10] around a
      gap [5, 3] covers sequence 4 twice. Every writer of gaps appends nonempty intervals. */
  lemma MalformedGapOverlaps(reason: string)
    ensures var added := Uncovered([Interval(5, 3)], 0, 10, 0, reason);
      && added == [Gap(MAIN_TRACK, 0, 0, 4, reason), Gap(MAIN_TRACK, 0, 4, 10, reason)]
      && !PairwiseApart(added)
  {
    var blocked, added := [Interval(5, 3)], Uncovered([Interval(5, 3)], 0, 10, 0, reason);
    assert blocked[1..] == [] && Uncovered([], 4, 10, 0, reason) == [Gap(MAIN_TRACK, 0, 4, 10, reason)];
    assert !Apart(added[0], added[1]);
  }

  lemma UncoveredStep(blocked: seq<Interval>, tail: seq<Gap>, cursor: nat, to: Uint64, epoch: Uint64, reason: string)
    requires SortedByStart(blocked) && blocked != [] && blocked[0].start <= blocked[0].end <= to
    requires cursor <= blocked[0].end && Runs(tail, blocked[0].end + 1, to, epoch)
    requires forall q: Uint64 :: GapCovers(tail, MAIN_TRACK, epoch, q) <==> blocked[0].end < q <= to && !Blocked(blocked[1..], q)
    ensures var start := blocked[0].start;
      var r := (if start > cursor then [Gap(MAIN_TRACK, epoch, cursor, start - 1, reason)] else []) + tail;
      && (forall q: Uint64 :: GapCovers(r, MAIN_TRACK, epoch, q) <==> cursor <= q <= to && !Blocked(blocked, q))
      && Runs(r, cursor, to, epoch)
  {
    var item := blocked[0];
    var head := if item.start > cursor then [Gap(MAIN_TRACK, epoch, cursor, item.start - 1, reason)] else [];
    BlockedByFirst(blocked);
    CoversByAppended(head, tail);
    if item.start > cursor { CoversBySingleton(head[0]); }
    RunsByConcat(head, tail, cursor, item, to, epoch);
    forall q: Uint64 | q < item.start ensures !Blocked(blocked[1..], q) {
    }
  }

  lemma CoversBySingleton(g: Gap)
    ensures forall t, e: Uint64, q: Uint64 :: GapCovers([g], t, e, q) <==> Covers(g, t, e, q)
  {
    assert [g][0] == g;
  }

  lemma BlockedByFirst(s: seq<Interval>)
    requires s != []
    ensures forall q: Uint64 :: Blocked(s, q) <==> s[0].start <= q <= s[0].end || Blocked(s[1..], q)
  {
    forall q: Uint64 ensures Blocked(s, q) <==> s[0].start <= q <= s[0].end || Blocked(s[1..], q) {
      if Blocked(s[1..], q) {
        var i :| 0 <= i < |s[1..]| && s[1..][i].start <= q <= s[1..][i].end;
        assert s[i + 1] == s[1..][i];
      }
      if Blocked(s, q) {
        var i :| 0 <= i < |s| && s[i].start <= q <= s[i].end;
        assert i > 0 ==> s[1..][i - 1] == s[i];
      }
    }
  }

  /** Appending the uncovered parts adds exactly the missing sequences. */
  lemma AppendedUncovered(gaps: seq<Gap>, more: seq<Gap>, blocked: seq<Interval>, captured: set<Uint64>,
                          epoch: Uint64, from: Uint64, to: Uint64, reason: string)
    requires WellFormed(gaps) && SortedByStart(blocked) && more == Uncovered(blocked, from, to, epoch, reason)
    requires forall i | 0 <= i < |blocked| :: blocked[i].start <= blocked[i].end <= to
    requires forall q: Uint64 :: Blocked(blocked, q) <==>
      from <= q <= to && (q in captured || GapCovers(gaps, MAIN_TRACK, epoch, q))
    ensures Runs(more, from, to, epoch)
    ensures WellFormed(gaps + more)
    ensures AddsExactly(gaps, gaps + more, epoch, from, to, captured)
    ensures PairwiseApart(gaps) ==> PairwiseApart(gaps + more)
  {
    UncoveredIsExact(blocked, from, to, epoch, reason);
    CoversByAppended(gaps, more);
    forall t, e: Uint64, q: Uint64 | GapCovers(more, t, e, q) ensures t == MAIN_TRACK && e == epoch {
    }
    if PairwiseApart(gaps) {
      forall i, j | 0 <= i < |gaps| && 0 <= j < |more| ensures Apart(gaps[i], more[j]) {
        if !Apart(gaps[i], more[j]) {
          var q: Uint64 := Max(gaps[i].from, more[j].from);
          assert Covers(gaps[i], MAIN_TRACK, epoch, q);
          assert Covers(more[j], MAIN_TRACK, epoch, q);
          assert GapCovers(gaps, MAIN_TRACK, epoch, q) && GapCovers(more, MAIN_TRACK, epoch, q);
        }
      }
      ApartByAppended(gaps, more);
    }
  }

  lemma ApartByAppended(gaps: seq<Gap>, added: seq<Gap>)
    requires PairwiseApart(gaps)
    requires forall i, j | 0 <= i < j < |added| :: added[i].to < added[j].from
    requires forall i, j | 0 <= i < |gaps| && 0 <= j < |added| :: Apart(gaps[i], added[j])
    ensures PairwiseApart(gaps + added)
  {
  }

  /** `after` covers what `before` covers and, for the main track and `epoch`,
      exactly the uncaptured part of [from, to] besides. */
  ghost predicate AddsExactly(before: seq<Gap>, after: seq<Gap>, epoch: Uint64, from: Uint64, to: Uint64, captured: set<Uint64>) {
    forall t, e: Uint64, q: Uint64 :: GapCovers(after, t, e, q) <==>
      GapCovers(before, t, e, q) || (t == MAIN_TRACK && e == epoch && from <= q <= to && q !in captured)
  }
}
