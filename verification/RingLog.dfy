/** The bounded application log: a ring of the newest entries, read newest first in
    pages that follow a cursor. */
module RingLog {
  import opened Hexadecimal

  const CAPACITY: nat := 2000
  const MAX_LIMIT: nat := 200
  const CURSOR_LENGTH: nat := 16
  const MAX_UINT64: nat := 0xFFFF_FFFF_FFFF_FFFF

  datatype Option<+T> = None | Some(value: T)

  /** An entry; its ID is the text of its sequence number. */
  datatype Entry = Entry(number: int, level: string, component: string, message: string)

  // Cursors -----------------------------------------------------------------------------

  /** The ID of the entry with this number. */
  function FormatCursor(n: nat): string { Hex(n, CURSOR_LENGTH) }

  /** parseCursor */
  function ParseCursor(text: string): Option<nat> {
    if |text| != CURSOR_LENGTH || !IsHex(text) then None
    else if ValueOf(text) == 0 || FormatCursor(ValueOf(text)) != text then None
    else Some(ValueOf(text))
  }

  /** Cursor text and sequence numbers determine each other. */
  lemma CursorRoundTrip(n: nat, text: string)
    requires 0 < n <= MAX_UINT64
    ensures ParseCursor(text) == Some(n) <==> text == FormatCursor(n)
  {
    assert Pow16(4) == 0x1_0000;
    assert Pow16(8) == 0x1_0000_0000;
    assert Pow16(12) == 0x1_0000_0000_0000;
    assert Pow16(16) == MAX_UINT64 + 1;
    HexRoundTrip(n, CURSOR_LENGTH);
  }

  // Pages ----------------------------------------------------------------------------------

  /** Every entry ever added, oldest first, numbered from 1. */
  predicate Numbered(log: seq<Entry>) { forall i | 0 <= i < |log| :: log[i].number == i + 1 }

  /** The oldest entry still retained. */
  function Oldest(log: seq<Entry>): nat { if |log| <= CAPACITY then 0 else |log| - CAPACITY }

  predicate Wanted(e: Entry, f: Entry -> bool, cursor: int) { f(e) && (cursor == 0 || e.number < cursor) }

  /** The wanted entries of log[lo..hi], newest first. */
  function Newest(log: seq<Entry>, lo: nat, hi: nat, f: Entry -> bool, cursor: int): seq<Entry>
    requires hi <= |log|
  {
    if hi <= lo then []
    else (if Wanted(log[hi - 1], f, cursor) then [log[hi - 1]] else []) + Newest(log, lo, hi - 1, f, cursor)
  }

  /** `next` is 0 when there is no next page. */
  datatype Page = Page(items: seq<Entry>, next: int, total: nat)

  function Cut(all: seq<Entry>, limit: nat, total: nat): Page
    requires limit > 0
  {
    if |all| > limit then Page(all[..limit], all[limit - 1].number, total) else Page(all, 0, total)
  }

  /** Query, for validated parameters. */
  function PageOf(log: seq<Entry>, f: Entry -> bool, limit: nat, cursor: int): Page
    requires limit > 0
  {
    Cut(Newest(log, Oldest(log), |log|, f, cursor), limit, |Newest(log, Oldest(log), |log|, f, 0)|)
  }

  /** Where the ring keeps entry number n + 1. */
  function Slot(n: nat): nat { n % CAPACITY }

  /** The ring holds the retained entries. */
  predicate Holds(slots: seq<Entry>, log: seq<Entry>)
    requires |slots| == CAPACITY
  {
    forall i | Oldest(log) <= i < |log| :: slots[Slot(i)] == log[i]
  }

  lemma SlotsDiffer(n: nat, i: nat)
    requires n - CAPACITY < i < n
    ensures Slot(i) != Slot(n)
  {
  }

  /** The newest entry takes the slot of the oldest one, and the next slot follows. */
  lemma Overwrites(slots: seq<Entry>, log: seq<Entry>, e: Entry)
    requires |slots| == CAPACITY && Holds(slots, log)
    ensures Holds(slots[Slot(|log|) := e], log + [e]) && Slot(|log| + 1) == (Slot(|log|) + 1) % CAPACITY
  {
    var after := slots[Slot(|log|) := e];
    forall i | Oldest(log + [e]) <= i < |log| + 1 ensures after[Slot(i)] == (log + [e])[i] {
      if i < |log| { SlotsDiffer(|log|, i); }
    }
    NextSlot(|log|);
  }

  lemma NextSlot(n: nat)
    ensures Slot(n + 1) == (Slot(n) + 1) % CAPACITY
  {
  }

  /** The ring itself. */
  class Store {
    const entries: array<Entry>
    var next: nat
    var count: nat
    var sequence: nat
    ghost var log: seq<Entry>

    ghost predicate Valid()
      reads this, entries
    {
      && entries.Length == CAPACITY && Numbered(log) && sequence == |log| <= MAX_UINT64
      && count == |log| - Oldest(log) && next == Slot(|log|) && Holds(entries[..], log)
    }

    constructor ()
      ensures Valid() && log == [] && fresh(entries)
    {
      entries := new Entry[CAPACITY](i => Entry(0, "", "", ""));
      next, count, sequence, log := 0, 0, 0, [];
    }

    /** Add, with labels and message already validated and sanitised. */
    method Add(level: string, component: string, message: string) returns (ok: bool)
      requires Valid()
      modifies this, entries
      ensures Valid() && ok == (|old(log)| < MAX_UINT64)
      ensures log == if ok then old(log) + [Entry(|old(log)| + 1, level, component, message)] else old(log)
    {
      if sequence == MAX_UINT64 { return false; }
      sequence := sequence + 1;
      var entry := Entry(sequence, level, component, message);
      Overwrites(entries[..], log, entry);
      entries[next] := entry;
      next := (next + 1) % CAPACITY;
      if count < CAPACITY { count := count + 1; }
      log := log + [entry];
      return true;
    }

    /** The slot that Query reads in the round of this age. */
    method Aged(age: nat) returns (entry: Entry)
      requires Valid() && age < count
      ensures entry == log[|log| - age - 1]
    {
      FindsAged(entries[..], log, age);
      var index: int := next - 1 - age;
      if index < 0 { index := index + CAPACITY; }
      return entries[index];
    }

    /** Query */
    method Query(f: Entry -> bool, limit: nat, cursor: int) returns (page: Page)
      requires Valid() && 0 < limit <= MAX_LIMIT && cursor >= 0
      ensures page == PageOf(log, f, limit, cursor)
    {
      ghost var all := log;
      var items: seq<Entry>, total: nat, hasMore := [], 0, false;
      for age := 0 to count
        invariant Paged(all, |all| - age, f, limit, cursor, items, hasMore, total)
      {
        var entry := Aged(age);
        PageOne(all, |all| - age - 1, f, limit, cursor, items, hasMore, total);
        if !f(entry) { continue; }
        total := total + 1;
        if cursor != 0 && entry.number >= cursor { continue; }
        if |items| == limit {
          hasMore := true;
        } else {
          items := items + [entry];
        }
      }
      PagedAll(all, f, limit, cursor, items, hasMore, total);
      return Page(items, if hasMore then items[|items| - 1].number else 0, total);
    }
  }

  /** The first of these entries, and whether there are more. */
  predicate Gathered(seen: seq<Entry>, items: seq<Entry>, hasMore: bool, limit: nat) {
    if |seen| > limit then items == seen[..limit] && hasMore else items == seen && !hasMore
  }

  lemma GatherOne(seen: seq<Entry>, items: seq<Entry>, hasMore: bool, limit: nat, entry: Entry)
    requires Gathered(seen, items, hasMore, limit)
    ensures Gathered(seen + [entry], if |items| == limit then items else items + [entry], hasMore || |items| == limit, limit)
  {
  }

  /** One older entry comes last. */
  lemma {:induction false} NewestGrows(log: seq<Entry>, lo: nat, hi: nat, f: Entry -> bool, cursor: int)
    requires lo < hi <= |log|
    ensures Newest(log, lo, hi, f, cursor)
         == Newest(log, lo + 1, hi, f, cursor) + if Wanted(log[lo], f, cursor) then [log[lo]] else []
    decreases hi
  {
    if hi > lo + 1 { NewestGrows(log, lo, hi - 1, f, cursor); }
  }

  /** The page under construction after the entries from `lo` on. */
  predicate Paged(log: seq<Entry>, lo: nat, f: Entry -> bool, limit: nat, cursor: int, items: seq<Entry>, hasMore: bool, total: nat)
    requires lo <= |log|
  {
    && total == |Newest(log, lo, |log|, f, 0)| && |items| <= limit
    && Gathered(Newest(log, lo, |log|, f, cursor), items, hasMore, limit)
  }

  lemma PageOne(log: seq<Entry>, lo: nat, f: Entry -> bool, limit: nat, cursor: int, items: seq<Entry>, hasMore: bool, total: nat)
    requires lo < |log| && Paged(log, lo + 1, f, limit, cursor, items, hasMore, total)
    ensures !f(log[lo]) ==> Paged(log, lo, f, limit, cursor, items, hasMore, total)
    ensures f(log[lo]) && !Wanted(log[lo], f, cursor) ==> Paged(log, lo, f, limit, cursor, items, hasMore, total + 1)
    ensures Wanted(log[lo], f, cursor) && |items| == limit ==> Paged(log, lo, f, limit, cursor, items, true, total + 1)
    ensures Wanted(log[lo], f, cursor) && |items| < limit ==> Paged(log, lo, f, limit, cursor, items + [log[lo]], hasMore, total + 1)
  {
    NewestGrows(log, lo, |log|, f, 0);
    NewestGrows(log, lo, |log|, f, cursor);
    GatherOne(Newest(log, lo + 1, |log|, f, cursor), items, hasMore, limit, log[lo]);
  }

  lemma PagedAll(log: seq<Entry>, f: Entry -> bool, limit: nat, cursor: int, items: seq<Entry>, hasMore: bool, total: nat)
    requires limit > 0 && Paged(log, Oldest(log), f, limit, cursor, items, hasMore, total)
    ensures hasMore ==> items != []
    ensures Page(items, if hasMore then items[|items| - 1].number else 0, total) == PageOf(log, f, limit, cursor)
  {
  }

  /** The entry that was added `age` entries before the newest one. */
  lemma FindsAged(slots: seq<Entry>, log: seq<Entry>, age: nat)
    requires |slots| == CAPACITY && Holds(slots, log) && age < |log| - Oldest(log)
    ensures var index: int := Slot(|log|) - 1 - age;
      slots[if index < 0 then index + CAPACITY else index] == log[|log| - age - 1]
  {
    SlotBefore(|log|, age);
  }

  lemma SlotBefore(n: nat, age: nat)
    requires age < n && age < CAPACITY
    ensures var index: int := Slot(n) - 1 - age; Slot(n - age - 1) == if index < 0 then index + CAPACITY else index
  {
  }

  // Following cursors -----------------------------------------------------------------------

  /** Newer entries are cut off by the cursor, older ones are not touched by it. */
  lemma {:induction false} CursorCuts(log: seq<Entry>, lo: nat, hi: nat, f: Entry -> bool, cursor: int)
    requires Numbered(log) && hi <= |log| && 0 < cursor <= hi + 1
    ensures Newest(log, lo, hi, f, cursor) == Newest(log, lo, cursor - 1, f, 0)
  {
    if cursor == hi + 1 {
      Unbounded(log, lo, hi, f, cursor);
    } else if hi > lo {
      assert !Wanted(log[hi - 1], f, cursor);
      assert Newest(log, lo, hi, f, cursor) == Newest(log, lo, hi - 1, f, cursor);
      CursorCuts(log, lo, hi - 1, f, cursor);
    }
  }

  lemma {:induction false} Unbounded(log: seq<Entry>, lo: nat, hi: nat, f: Entry -> bool, cursor: int)
    requires Numbered(log) && hi <= |log| && cursor > hi
    ensures Newest(log, lo, hi, f, cursor) == Newest(log, lo, hi, f, 0)
  {
    if hi > lo {
      assert Wanted(log[hi - 1], f, cursor) == Wanted(log[hi - 1], f, 0);
      Unbounded(log, lo, hi - 1, f, cursor);
    }
  }

  /** The entry at a position of the listing, and what comes after it. */
  lemma {:induction false} AfterItem(log: seq<Entry>, lo: nat, hi: nat, f: Entry -> bool, i: nat)
    requires Numbered(log) && hi <= |log| && i < |Newest(log, lo, hi, f, 0)|
    ensures var all := Newest(log, lo, hi, f, 0);
      lo < all[i].number <= hi && log[all[i].number - 1] == all[i] && Newest(log, lo, all[i].number - 1, f, 0) == all[i + 1..]
  {
    var all := Newest(log, lo, hi, f, 0);
    var rest := Newest(log, lo, hi - 1, f, 0);
    if Wanted(log[hi - 1], f, 0) {
      assert all == [log[hi - 1]] + rest;
      if i > 0 {
        AfterItem(log, lo, hi - 1, f, i - 1);
        assert all[i] == rest[i - 1] && all[i + 1..] == rest[i..];
      } else {
        assert all[1..] == rest;
      }
    } else {
      assert all == rest;
      AfterItem(log, lo, hi - 1, f, i);
    }
  }

  /** Where a cursor of 0 or of an earlier page starts reading. */
  function From(log: seq<Entry>, cursor: int): nat
  {
    if 0 < cursor <= |log| then cursor - 1 else |log|
  }

  lemma ListingIs(log: seq<Entry>, f: Entry -> bool, cursor: int)
    requires Numbered(log) && 0 <= cursor <= |log|
    ensures Newest(log, Oldest(log), |log|, f, cursor) == Newest(log, Oldest(log), From(log, cursor), f, 0)
  {
    if cursor > 0 { CursorCuts(log, Oldest(log), |log|, f, cursor); }
  }

  /** Reading page after page while the log grows: one log per page. */
  function Session(logs: seq<seq<Entry>>, f: Entry -> bool, limit: nat, cursor: int): seq<Entry>
    requires limit > 0
  {
    if logs == [] then []
    else
      var page := PageOf(logs[0], f, limit, cursor);
      if page.next == 0 then page.items else page.items + Session(logs[1..], f, limit, page.next)
  }

  /** The session ends with a page that has no next one. */
  predicate Finishes(logs: seq<seq<Entry>>, f: Entry -> bool, limit: nat, cursor: int)
    requires limit > 0
  {
    logs != [] && (PageOf(logs[0], f, limit, cursor).next == 0 || Finishes(logs[1..], f, limit, PageOf(logs[0], f, limit, cursor).next))
  }

  predicate Growing(logs: seq<seq<Entry>>) {
    && (forall i | 0 <= i < |logs| :: Numbered(logs[i]))
    && (forall i, j | 0 <= i <= j < |logs| :: logs[i] <= logs[j])
  }

  predicate Descending(s: seq<Entry>) { forall i, j | 0 <= i < j < |s| :: s[i].number > s[j].number }

  /** One page: what it lists, and where the next one starts. */
  lemma PageLists(log: seq<Entry>, f: Entry -> bool, limit: nat, cursor: int)
    requires Numbered(log) && limit > 0 && 0 <= cursor <= |log|
    ensures var page, all := PageOf(log, f, limit, cursor), Newest(log, Oldest(log), From(log, cursor), f, 0);
      && page.items <= all && (page.next == 0 ==> page.items == all)
      && (page.next != 0 ==>
            (&& |page.items| == limit && page.next == page.items[limit - 1].number && 0 < page.next <= From(log, cursor)
             && Newest(log, Oldest(log), From(log, page.next), f, 0) == all[limit..]))
  {
    ListingIs(log, f, cursor);
    var all := Newest(log, Oldest(log), From(log, cursor), f, 0);
    if |all| > limit { AfterItem(log, Oldest(log), From(log, cursor), f, limit - 1); }
  }

  /** The listing is newest first, and holds exactly the matching retained entries. */
  lemma {:induction false} ListingSound(log: seq<Entry>, lo: nat, hi: nat, f: Entry -> bool)
    requires Numbered(log) && hi <= |log|
    ensures Descending(Newest(log, lo, hi, f, 0))
    ensures forall e :: e in Newest(log, lo, hi, f, 0) <==> exists i | lo <= i < hi :: log[i] == e && f(e)
  {
    if hi > lo {
      ListingSound(log, lo, hi - 1, f);
      var rest := Newest(log, lo, hi - 1, f, 0);
      forall i | 0 <= i < |rest| ensures rest[i].number < hi { assert rest[i] in rest; }
      forall e ensures e in Newest(log, lo, hi, f, 0) <==> exists i | lo <= i < hi :: log[i] == e && f(e) {
        assert e in Newest(log, lo, hi, f, 0) <==> e in rest || (e == log[hi - 1] && f(e));
      }
    }
  }

  /** Over an unchanged store the pages concatenate to the whole listing. */
  lemma {:induction false} PagingIsComplete(log: seq<Entry>, f: Entry -> bool, limit: nat, cursor: int, n: nat)
    requires Numbered(log) && limit > 0 && 0 <= cursor <= |log| && n > From(log, cursor)
    ensures Session(seq(n, _ => log), f, limit, cursor) == Newest(log, Oldest(log), From(log, cursor), f, 0)
    decreases n
  {
    PageLists(log, f, limit, cursor);
    var page, logs := PageOf(log, f, limit, cursor), seq(n, _ => log);
    if page.next != 0 {
      var all := Newest(log, Oldest(log), From(log, cursor), f, 0);
      assert logs[1..] == seq(n - 1, _ => log);
      PagingIsComplete(log, f, limit, page.next, n - 1);
      assert page.items == all[..limit] && all == all[..limit] + all[limit..];
    }
  }

  lemma Shifted(logs: seq<seq<Entry>>)
    requires Growing(logs) && logs != []
    ensures Growing(logs[1..])
  {
    forall i, j | 0 <= i <= j < |logs| - 1 ensures logs[1..][i] <= logs[1..][j] { assert logs[i + 1] <= logs[j + 1]; }
  }

  /** Matching entries, newest first, none newer than entry number hi. */
  predicate Lists(s: seq<Entry>, f: Entry -> bool, hi: int) {
    Descending(s) && forall e | e in s :: 0 < e.number <= hi && f(e)
  }

  lemma ListingMatches(log: seq<Entry>, lo: nat, hi: nat, f: Entry -> bool)
    requires Numbered(log) && hi <= |log|
    ensures Lists(Newest(log, lo, hi, f, 0), f, hi)
  {
    ListingSound(log, lo, hi, f);
  }

  lemma PrefixLists(s: seq<Entry>, all: seq<Entry>, f: Entry -> bool, hi: int)
    requires s <= all && Lists(all, f, hi)
    ensures Lists(s, f, hi)
  {
    forall e | e in s ensures 0 < e.number <= hi && f(e) { InPrefix(s, all, e); }
  }

  lemma LastIsLeast(s: seq<Entry>)
    requires Descending(s) && s != []
    ensures forall i | 0 <= i < |s| :: s[i].number >= s[|s| - 1].number
  {
  }

  /** A page lists matching entries, newest first, none older than its next cursor. */
  lemma PageMatches(log: seq<Entry>, f: Entry -> bool, limit: nat, cursor: int)
    requires Numbered(log) && limit > 0 && 0 <= cursor <= |log|
    ensures var page := PageOf(log, f, limit, cursor);
      && Lists(page.items, f, From(log, cursor)) && 0 <= page.next <= From(log, cursor)
      && forall i | 0 <= i < |page.items| :: page.items[i].number >= page.next
  {
    var page, hi := PageOf(log, f, limit, cursor), From(log, cursor);
    PageLists(log, f, limit, cursor);
    ListingMatches(log, Oldest(log), hi, f);
    PrefixLists(page.items, Newest(log, Oldest(log), hi, f, 0), f, hi);
    if page.next != 0 { LastIsLeast(page.items); }
  }

  /** A page lists every matching retained entry from its next cursor on. */
  lemma PageListsAll(log: seq<Entry>, f: Entry -> bool, limit: nat, cursor: int, i: nat)
    requires Numbered(log) && limit > 0 && 0 <= cursor <= |log|
    requires Oldest(log) <= i < From(log, cursor) && f(log[i]) && i + 1 >= PageOf(log, f, limit, cursor).next
    ensures log[i] in PageOf(log, f, limit, cursor).items
  {
    var page, all := PageOf(log, f, limit, cursor), Newest(log, Oldest(log), From(log, cursor), f, 0);
    PageLists(log, f, limit, cursor);
    ListingSound(log, Oldest(log), From(log, cursor), f);
    assert log[i] in all;
    if page.next != 0 { InFirstPage(all, limit, log[i], page.next); }
  }

  lemma InPrefix(s: seq<Entry>, all: seq<Entry>, e: Entry)
    requires s <= all && e in s
    ensures e in all
  {
    var i :| 0 <= i < |s| && s[i] == e;
    assert all[i] == e;
  }

  /** With entries added between the pages nothing is returned twice, and the order stays
      newest first. */
  lemma {:induction false} PagingNeverRepeats(logs: seq<seq<Entry>>, f: Entry -> bool, limit: nat, cursor: int)
    requires Growing(logs) && logs != [] && limit > 0 && 0 <= cursor <= |logs[0]|
    ensures Lists(Session(logs, f, limit, cursor), f, From(logs[0], cursor))
    decreases |logs|
  {
    var page := PageOf(logs[0], f, limit, cursor);
    PageMatches(logs[0], f, limit, cursor);
    if page.next != 0 && |logs| > 1 {
      Shifted(logs);
      assert logs[0] <= logs[1];
      PagingNeverRepeats(logs[1..], f, limit, page.next);
      JoinDescending(page.items, Session(logs[1..], f, limit, page.next), page.next);
    } else if page.next != 0 {
      assert Session(logs[1..], f, limit, page.next) == [];
    }
  }

  /** Every matching entry that was there at the start and is still retained at the end is
      returned: only overwritten entries can be missed. */
  lemma {:induction false} PagingMissesOnlyOverwritten(logs: seq<seq<Entry>>, f: Entry -> bool, limit: nat, cursor: int, i: nat)
    requires Growing(logs) && limit > 0 && Finishes(logs, f, limit, cursor) && 0 <= cursor <= |logs[0]|
    requires |logs[|logs| - 1]| - 2000 <= i < From(logs[0], cursor) && f(logs[0][i])
    ensures logs[0][i] in Session(logs, f, limit, cursor)
    decreases |logs|
  {
    var log, page := logs[0], PageOf(logs[0], f, limit, cursor);
    PageMatches(log, f, limit, cursor);
    assert log <= logs[|logs| - 1];
    if i + 1 >= page.next {
      PageListsAll(log, f, limit, cursor, i);
    } else {
      Shifted(logs);
      assert logs[0] <= logs[1];
      PagingMissesOnlyOverwritten(logs[1..], f, limit, page.next, i);
    }
  }

  lemma JoinDescending(a: seq<Entry>, b: seq<Entry>, bound: int)
    requires Descending(a) && Descending(b) && (forall i | 0 <= i < |a| :: a[i].number >= bound) && forall e | e in b :: e.number < bound
    ensures Descending(a + b)
  {
    forall i, j | 0 <= i < j < |a + b| ensures (a + b)[i].number > (a + b)[j].number {
      if j >= |a| { assert b[j - |a|] in b; }
    }
  }

  lemma InFirstPage(all: seq<Entry>, limit: nat, e: Entry, bound: int)
    requires Descending(all) && 0 < limit <= |all| && e in all && e.number >= bound && bound == all[limit - 1].number
    ensures e in all[..limit]
  {
    var i :| 0 <= i < |all| && all[i] == e;
    assert i < limit;
    assert all[..limit][i] == e;
  }
}
