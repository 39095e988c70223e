/** The printer of local VOD playlists (internal/derivative/playlist.go) and its round
    trip through the media playlist parser. */
module VodPlaylist {
  import opened AttributeList
  import opened PlaylistText
  import opened MediaPlaylist

  /** An archived segment; `duration` is None for NaN and infinities. */
  datatype Segment = Segment(
    ordinal: Uint64, epoch: Uint64, sequence: Uint64, trackId: string, path: string,
    duration: Option<real>, initId: string, discontinuity: bool)

  datatype InitSegment = InitSegment(id: string, path: string, isInit: bool)

  datatype Track = Track(id: string, segments: seq<Segment>, inits: seq<InitSegment>)

  // Archive order ----------------------------------------------------------------------------

  /** The comparison of the sort: ordinals first, legacy segments after them. */
  predicate Less(a: Segment, b: Segment) {
    if a.ordinal != 0 || b.ordinal != 0 then a.ordinal != 0 && (b.ordinal == 0 || a.ordinal < b.ordinal)
    else if a.epoch != b.epoch then a.epoch < b.epoch
    else a.sequence < b.sequence
  }

  predicate Tied(a: Segment, b: Segment) { !Less(a, b) && !Less(b, a) }

  function Insert(x: Segment, s: seq<Segment>): seq<Segment> {
    if s == [] || !Less(s[0], x) then [x] + s else [s[0]] + Insert(x, s[1..])
  }

  /** sort.SliceStable */
  function StableSort(s: seq<Segment>): seq<Segment> { if s == [] then [] else Insert(s[0], StableSort(s[1..])) }

  function Ties(s: seq<Segment>, x: Segment): seq<Segment> {
    if s == [] then [] else (if Tied(s[0], x) then [s[0]] else []) + Ties(s[1..], x)
  }

  predicate Ascending(s: seq<Segment>) { forall i, j | 0 <= i < j < |s| :: !Less(s[j], s[i]) }

  lemma {:induction false} InsertKeeps(x: Segment, s: seq<Segment>)
    ensures multiset(Insert(x, s)) == multiset(s) + multiset{x}
    ensures forall e :: e in Insert(x, s) <==> e == x || e in s
  {
    if s != [] && Less(s[0], x) {
      InsertKeeps(x, s[1..]);
      assert s == [s[0]] + s[1..];
    }
  }

  lemma LessOrders(a: Segment, b: Segment, c: Segment)
    ensures !Less(a, a) && !(Less(a, b) && Less(b, a)) && (!Less(a, b) && !Less(b, c) ==> !Less(a, c))
  {
  }

  predicate NoneBelow(s: seq<Segment>, x: Segment) { forall e | e in s :: !Less(e, x) }

  lemma ConsAscends(x: Segment, s: seq<Segment>)
    requires Ascending(s) && NoneBelow(s, x)
    ensures Ascending([x] + s)
  {
    forall i, j | 0 <= i < j < |[x] + s| ensures !Less(([x] + s)[j], ([x] + s)[i]) { assert s[j - 1] in s; }
  }

  lemma HeadIsLeast(s: seq<Segment>)
    requires Ascending(s) && s != []
    ensures Ascending(s[1..]) && NoneBelow(s[1..], s[0])
  {
  }

  lemma {:induction false} InsertAscends(x: Segment, s: seq<Segment>)
    requires Ascending(s)
    ensures Ascending(Insert(x, s))
  {
    if s != [] {
      HeadIsLeast(s);
      if Less(s[0], x) {
        InsertAscends(x, s[1..]);
        InsertKeeps(x, s[1..]);
        LessOrders(s[0], x, x);
        ConsAscends(s[0], Insert(x, s[1..]));
      } else {
        forall e | e in s ensures !Less(e, x) {
          assert e == s[0] || e in s[1..];
          LessOrders(e, s[0], x);
        }
        ConsAscends(x, s);
      }
    }
  }

  lemma {:induction false} InsertTies(x: Segment, s: seq<Segment>, y: Segment)
    ensures Ties(Insert(x, s), y) == Ties([x] + s, y)
  {
    assert ([x] + s)[1..] == s;
    if s != [] && Less(s[0], x) {
      InsertTies(x, s[1..], y);
      var rest := Insert(x, s[1..]);
      assert ([s[0]] + rest)[1..] == rest && ([x] + s[1..])[1..] == s[1..];
    }
  }

  /** The sort keeps the segments, orders them, and never reorders tied ones. */
  lemma {:induction false} SortIsStable(s: seq<Segment>, x: Segment)
    ensures Ascending(StableSort(s)) && multiset(StableSort(s)) == multiset(s) && Ties(StableSort(s), x) == Ties(s, x)
  {
    if s != [] {
      SortIsStable(s[1..], x);
      InsertKeeps(s[0], StableSort(s[1..]));
      InsertAscends(s[0], StableSort(s[1..]));
      InsertTies(s[0], StableSort(s[1..]), x);
      var sorted := StableSort(s[1..]);
      assert s == [s[0]] + s[1..] && ([s[0]] + sorted)[1..] == sorted;
    }
  }

  /** Archive order: segments with an ordinal come first, by ordinal; those without follow, by
      epoch and sequence. */
  lemma {:induction false} SortOrder(s: seq<Segment>, i: nat, j: nat)
    requires i < j < |s|
    ensures |StableSort(s)| == |s|
    ensures var a, b := StableSort(s)[i], StableSort(s)[j];
      && (b.ordinal != 0 ==> a.ordinal != 0 && a.ordinal <= b.ordinal)
      && (a.ordinal == 0 ==> b.ordinal == 0 && (a.epoch < b.epoch || (a.epoch == b.epoch && a.sequence <= b.sequence)))
  {
    SortIsStable(s, s[0]);
    Kept(StableSort(s), s);
    assert !Less(StableSort(s)[j], StableSort(s)[i]);
  }

  // Printing ---------------------------------------------------------------------------------

  function NameOf(names: map<string, string>, path: string): string { if path in names then names[path] else "" }

  function InitsById(inits: seq<InitSegment>): Option<map<string, InitSegment>> {
    if inits == [] then Some(map[])
    else
      var before, init := InitsById(inits[..|inits| - 1]), inits[|inits| - 1];
      if before.None? || init.id == "" || init.path == "" || !init.isInit || init.id in before.value then None
      else Some(before.value[init.id := init])
  }

  predicate DistinctOrdinals(s: seq<Segment>) {
    forall i, j | 0 <= i < j < |s| && s[i].ordinal != 0 :: s[i].ordinal != s[j].ordinal
  }

  predicate Accepts(trackId: string, inits: map<string, InitSegment>, names: map<string, string>, s: Segment) {
    && s.trackId == trackId && s.path != "" && s.duration.Some? && s.duration.value > 0.0 && NameOf(names, s.path) != ""
    && (s.initId != "" ==> s.initId in inits && NameOf(names, inits[s.initId].path) != "")
  }

  predicate AllAccepted(trackId: string, inits: map<string, InitSegment>, names: map<string, string>, s: seq<Segment>) {
    forall i | 0 <= i < |s| :: Accepts(trackId, inits, names, s[i])
  }

  predicate Finite(s: seq<Segment>) { forall i | 0 <= i < |s| :: s[i].duration.Some? }

  function Longest(s: seq<Segment>): real
    requires Finite(s)
  {
    if s == [] then 0.0
    else
      var before, d := Longest(s[..|s| - 1]), s[|s| - 1].duration.value;
      if d > before then d else before
  }

  function Ceil(x: real): int { -((-x).Floor) }

  function TargetOf(s: seq<Segment>): nat
    requires Finite(s)
  {
    if Ceil(Longest(s)) < 1 then 1 else Ceil(Longest(s))
  }

  function Header(target: nat): seq<string> {
    ["#EXTM3U", "#EXT-X-VERSION:7", "#EXT-X-PLAYLIST-TYPE:VOD", "#EXT-X-TARGETDURATION:" + Digits(target, 1), "#EXT-X-MEDIA-SEQUENCE:0"]
  }

  /** How the printer sees its surroundings: local names, initialisation sections, and the
      shortest decimal text of a float64. */
  datatype Printer = Printer(names: map<string, string>, inits: map<string, InitSegment>, format: real -> Decimal)

  function InitName(p: Printer, id: string): string { if id in p.inits then NameOf(p.names, p.inits[id].path) else "" }

  function Opening(last: string, s: Segment, p: Printer): seq<string> {
    (if s.discontinuity then ["#EXT-X-DISCONTINUITY"] else [])
    + if s.initId != last && s.initId != "" then ["#EXT-X-MAP:URI=\"" + InitName(p, s.initId) + "\""] else []
  }

  function Closing(s: Segment, p: Printer): seq<string>
    requires s.duration.Some?
  {
    ["#EXTINF:" + Show(p.format(s.duration.value)) + ",", NameOf(p.names, s.path)]
  }

  /** lastInit after these segments. */
  function LastInit(s: seq<Segment>): string { if s == [] then "\0" else s[|s| - 1].initId }

  function Body(s: seq<Segment>, p: Printer): seq<string>
    requires Finite(s)
  {
    if s == [] then []
    else
      var before := s[..|s| - 1];
      Body(before, p) + Opening(LastInit(before), s[|s| - 1], p) + Closing(s[|s| - 1], p)
  }

  function Printed(s: seq<Segment>, p: Printer): seq<string>
    requires Finite(s)
  {
    Header(TargetOf(s)) + Body(s, p) + ["#EXT-X-ENDLIST"]
  }

  /** What buildPlaylist refuses: the reasons of ErrUnsupported, for a chosen track. */
  predicate Supported(track: Track, names: map<string, string>) {
    && track.id != "" && track.segments != [] && DistinctOrdinals(track.segments) && InitsById(track.inits).Some?
    && AllAccepted(track.id, InitsById(track.inits).value, names, track.segments)
  }

  lemma Kept(s: seq<Segment>, t: seq<Segment>)
    requires multiset(s) == multiset(t)
    ensures |s| == |t| && (forall i | 0 <= i < |s| :: s[i] in t) && forall i | 0 <= i < |t| :: t[i] in s
  {
    assert |multiset(s)| == |multiset(t)|;
    forall i | 0 <= i < |s| ensures s[i] in t { assert s[i] in multiset(s); }
    forall i | 0 <= i < |t| ensures t[i] in s { assert t[i] in multiset(t); }
  }

  lemma AcceptedSorted(trackId: string, inits: map<string, InitSegment>, names: map<string, string>, s: seq<Segment>)
    ensures AllAccepted(trackId, inits, names, s) <==> AllAccepted(trackId, inits, names, StableSort(s))
  {
    if s != [] { SortIsStable(s, s[0]); }
    Kept(s, StableSort(s));
  }

  lemma JoinedAppend(lines: seq<string>, more: seq<string>)
    ensures more != [] ==> Joined(lines + more) == Joined(lines + more[..|more| - 1]) + more[|more| - 1] + "\n"
    ensures more == [] ==> lines + more == lines
  {
    if more != [] { assert (lines + more)[..|lines + more| - 1] == lines + more[..|more| - 1]; }
  }

  method CheckOrdinals(segments: seq<Segment>) returns (ok: bool)
    ensures ok == DistinctOrdinals(segments)
  {
    var seen: set<Uint64> := {};
    for i := 0 to |segments|
      invariant DistinctOrdinals(segments[..i])
      invariant forall x :: x in seen <==> exists j | 0 <= j < i :: segments[j].ordinal != 0 && segments[j].ordinal == x
    {
      if segments[i].ordinal == 0 { continue; }
      if segments[i].ordinal in seen { return false; }
      seen := seen + {segments[i].ordinal};
    }
    assert segments[..|segments|] == segments;
    return true;
  }

  method IndexInits(inits: seq<InitSegment>) returns (byId: Option<map<string, InitSegment>>)
    ensures byId == InitsById(inits)
  {
    var m: map<string, InitSegment> := map[];
    for i := 0 to |inits|
      invariant InitsById(inits[..i]) == Some(m)
    {
      var init := inits[i];
      assert inits[..i + 1][..i] == inits[..i];
      if init.id == "" || init.path == "" || !init.isInit || init.id in m {
        NoIndex(inits, i + 1);
        return None;
      }
      m := m[init.id := init];
    }
    assert inits[..|inits|] == inits;
    return Some(m);
  }

  lemma {:induction false} NoIndex(inits: seq<InitSegment>, i: nat)
    requires i <= |inits| && InitsById(inits[..i]).None?
    ensures InitsById(inits).None?
  {
    if i < |inits| {
      assert inits[..|inits| - 1][..i] == inits[..i];
      NoIndex(inits[..|inits| - 1], i);
    } else {
      assert inits[..i] == inits;
    }
  }

  method CheckSegments(trackId: string, inits: map<string, InitSegment>, names: map<string, string>, segments: seq<Segment>)
    returns (ok: bool, longest: real)
    ensures ok == AllAccepted(trackId, inits, names, segments)
    ensures ok ==> Finite(segments) && longest == Longest(segments)
  {
    longest := 0.0;
    for i := 0 to |segments|
      invariant AllAccepted(trackId, inits, names, segments[..i]) && Finite(segments[..i]) && longest == Longest(segments[..i])
    {
      var s := segments[i];
      assert segments[..i + 1][..i] == segments[..i] && segments[..i + 1][i] == s;
      if s.trackId != trackId || s.path == "" || s.duration.None? || s.duration.value <= 0.0 { return false, longest; }
      if s.duration.value > longest { longest := s.duration.value; }
      if NameOf(names, s.path) == "" { return false, longest; }
      if s.initId != "" && (s.initId !in inits || NameOf(names, inits[s.initId].path) == "") { return false, longest; }
    }
    assert segments[..|segments|] == segments;
    return true, longest;
  }

  /** buildPlaylist, once primaryTrack has chosen the track. */
  method BuildPlaylist(track: Track, names: map<string, string>, format: real -> Decimal) returns (r: Option<string>)
    ensures r.Some? <==> Supported(track, names)
    ensures r.Some? ==>
      var p, ordered := Printer(names, InitsById(track.inits).value, format), StableSort(track.segments);
      Finite(ordered) && r.value == Joined(Printed(ordered, p))
  {
    if track.id == "" || track.segments == [] { return None; }
    var distinct := CheckOrdinals(track.segments);
    if !distinct { return None; }
    var segments := StableSort(track.segments);
    var inits := IndexInits(track.inits);
    if inits.None? { return None; }
    AcceptedSorted(track.id, inits.value, names, track.segments);
    var ok, longest := CheckSegments(track.id, inits.value, names, segments);
    if !ok { return None; }
    var target := Ceil(longest);
    if target < 1 { target := 1; }
    var text := Write(segments, Printer(names, inits.value, format), target);
    return Some(text);
  }

  lemma BodyGrows(header: seq<string>, s: seq<Segment>, i: nat, p: Printer)
    requires i < |s| && Finite(s)
    ensures header + Body(s[..i + 1], p)
         == header + Body(s[..i], p) + (Opening(LastInit(s[..i]), s[i], p) + Closing(s[i], p))
    ensures LastInit(s[..i + 1]) == s[i].initId
  {
    assert s[..i + 1][..i] == s[..i];
    Regroup(header, Body(s[..i], p), Opening(LastInit(s[..i]), s[i], p), Closing(s[i], p));
  }

  lemma Regroup(a: seq<string>, b: seq<string>, c: seq<string>, d: seq<string>)
    ensures a + (b + c + d) == a + b + (c + d)
  {
  }

  method Write(segments: seq<Segment>, p: Printer, target: nat) returns (text: string)
    requires Finite(segments) && target == TargetOf(segments)
    ensures text == Joined(Printed(segments, p))
  {
    text := WriteLines("", [], Header(target));
    var lastInit := "\0";
    ghost var lines := Header(target);
    assert [] + lines == lines == lines + Body(segments[..0], p);
    for i := 0 to |segments|
      invariant lines == Header(target) + Body(segments[..i], p) && text == Joined(lines) && lastInit == LastInit(segments[..i])
    {
      text, lastInit := WriteEntry(text, lines, segments[i], lastInit, p);
      BodyGrows(Header(target), segments, i, p);
      lines := Header(target) + Body(segments[..i + 1], p);
    }
    assert segments[..|segments|] == segments;
    text := WriteLines(text, lines, ["#EXT-X-ENDLIST"]);
  }

  method WriteEntry(text: string, ghost before: seq<string>, s: Segment, lastInit: string, p: Printer) returns (r: string, nextInit: string)
    requires text == Joined(before) && s.duration.Some?
    ensures r == Joined(before + (Opening(lastInit, s, p) + Closing(s, p))) && nextInit == s.initId
  {
    var opening := if s.discontinuity then ["#EXT-X-DISCONTINUITY"] else [];
    if s.initId != lastInit && s.initId != "" { opening := opening + ["#EXT-X-MAP:URI=\"" + InitName(p, s.initId) + "\""]; }
    assert opening == Opening(lastInit, s, p);
    r := WriteLines(text, before, opening + Closing(s, p));
    nextInit := s.initId;
  }

  method WriteLines(text: string, ghost before: seq<string>, lines: seq<string>) returns (r: string)
    requires text == Joined(before)
    ensures r == Joined(before + lines)
  {
    r := text;
    assert before + lines[..0] == before;
    for i := 0 to |lines|
      invariant r == Joined(before + lines[..i])
    {
      r := r + lines[i] + "\n";
      JoinedAppend(before, lines[..i + 1]);
      assert lines[..i + 1][..i] == lines[..i];
    }
    assert lines[..|lines|] == lines;
  }
}
