/** The media playlist parser (internal/hls/parse.go): one pass over the lines, tag by
    tag. URI resolution, timestamps and the rounding of decimals to floating point are
    parameters. */
module MediaPlaylist {
  import opened AttributeList
  import opened PlaylistText

  const MAX_UINT64: nat := 0xFFFF_FFFF_FFFF_FFFF
  const MAX_DURATION: nat := 86400
  const MAX_MANIFEST_BYTES: nat := 0x40_0000

  type Uint64 = n: nat | n <= MAX_UINT64

  datatype Result<+T> = Ok(value: T) | Err(problem: Problem)

  datatype Problem =
    | TooLarge | BadHeader | Unsupported | BadSequence | BadDiscontinuity | BadTarget | BadDuration
    | BadTime | BadAttributes | BadUri | BadRange | NoDuration | NoUri | SequenceOverflow | NoTarget | NoSegments

  /** What the parser takes from its surroundings: reference resolution against the
      playlist URL, rounding to the nearest float64, and timestamp parsing. */
  datatype Env = Env(resolve: string -> Option<string>, round: real -> real, time: string -> Option<int>)

  datatype AnyRange = ByteRange(length: Uint64, offset: Uint64)

  /** A range of at least one byte whose end does not overflow. */
  type ByteRange = r: AnyRange | r.length > 0 && r.offset + r.length <= MAX_UINT64 witness ByteRange(1, 0)

  datatype Init = Init(uri: string, range: Option<ByteRange>)

  datatype MediaSegment = MediaSegment(
    sequence: Uint64, discontinuitySequence: Uint64, uri: string, duration: real, time: Option<int>,
    init: Option<Init>, range: Option<ByteRange>, discontinuity: bool, gap: bool)

  datatype Playlist = Playlist(
    target: nat, mediaSequence: Uint64, discontinuitySequence: Uint64, segments: seq<MediaSegment>, endList: bool)

  // Tags -----------------------------------------------------------------------------------

  datatype Tag =
    | Rejected | SequenceTag(text: string) | DiscontinuitySequenceTag(text: string) | TargetTag(text: string)
    | InfTag(text: string) | TimeTag(text: string) | MapTag(text: string) | RangeTag(text: string)
    | DiscontinuityTag | GapTag | EndTag | LowLatencyTag | KeyTag(text: string) | Ignored | UriLine(text: string)

  /** The switch of ParseMedia. */
  function Classify(line: string): Tag {
    if "#EXT-X-DEFINE:" <= line || "#EXT-X-I-FRAME-STREAM-INF:" <= line then Rejected
    else if "#EXT-X-MEDIA-SEQUENCE:" <= line then SequenceTag(line[22..])
    else if "#EXT-X-DISCONTINUITY-SEQUENCE:" <= line then DiscontinuitySequenceTag(line[30..])
    else if "#EXT-X-TARGETDURATION:" <= line then TargetTag(line[22..])
    else if "#EXTINF:" <= line then InfTag(line[8..])
    else if "#EXT-X-PROGRAM-DATE-TIME:" <= line then TimeTag(line[25..])
    else if "#EXT-X-MAP:" <= line then MapTag(line[11..])
    else if "#EXT-X-BYTERANGE:" <= line then RangeTag(line[17..])
    else ClassifyRest(line)
  }

  function ClassifyRest(line: string): Tag {
    if line == "#EXT-X-DISCONTINUITY" then DiscontinuityTag
    else if line == "#EXT-X-GAP" then GapTag
    else if line == "#EXT-X-ENDLIST" then EndTag
    else if "#EXT-X-PART:" <= line || "#EXT-X-PART-INF:" <= line || "#EXT-X-PRELOAD-HINT:" <= line
         || "#EXT-X-SERVER-CONTROL:" <= line || "#EXT-X-RENDITION-REPORT:" <= line then LowLatencyTag
    else if "#EXT-X-SKIP:" <= line then Rejected
    else if "#EXT-X-KEY:" <= line then KeyTag(line[11..])
    else if "#EXT-X-SESSION-KEY:" <= line || line == "#EXT-X-I-FRAMES-ONLY" then Rejected
    else if "#" <= line || line == "" then Ignored
    else UriLine(line)
  }

  // Values ---------------------------------------------------------------------------------

  function Upper(s: string): string {
    seq(|s|, i requires 0 <= i < |s| => if 'a' <= s[i] <= 'z' then s[i] - 'a' + 'A' else s[i])
  }

  function Attribute(attrs: map<string, string>, key: string): string { if key in attrs then attrs[key] else "" }

  /** resolveURI */
  function Resolve(env: Env, reference: string): Option<string> {
    if Trim(reference) == "" then None else env.resolve(Trim(reference))
  }

  /** parseRange */
  function RangeOf(text: string, default: Uint64): (r: Option<ByteRange>)
    ensures r.Some? && '@' !in text ==> r.value.offset == default
  {
    var at := Find(text, 0, {'@'});
    var length := ParseUint(text[..at], MAX_UINT64);
    var offset := if at == |text| then Some(default) else ParseUint(text[at + 1..], MAX_UINT64);
    if length.None? || length.value == 0 || offset.None? || offset.value > MAX_UINT64 - length.value then None
    else Some(ByteRange(length.value, offset.value))
  }

  /** The duration of an EXTINF tag. */
  function DurationOf(env: Env, text: string): (r: Option<real>)
    ensures r.Some? ==> 0.0 <= r.value <= MAX_DURATION as real
  {
    var d := DecimalOf(text[..Find(text, 0, {','})]);
    if d.None? then None
    else
      var seconds := env.round(Value(d.value));
      if seconds < 0.0 || seconds > MAX_DURATION as real then None else Some(seconds)
  }

  /** The initialisation section of an EXT-X-MAP tag. */
  function InitOf(env: Env, text: string): Result<Init> {
    var attrs := AttrsOf(text);
    if attrs.None? then Err(BadAttributes)
    else
      var uri := Resolve(env, Attribute(attrs.value, "URI"));
      if uri.None? then Err(BadUri)
      else if "BYTERANGE" !in attrs.value then Ok(Init(uri.value, None))
      else
        var raw := attrs.value["BYTERANGE"];
        var range := RangeOf(raw, 0);
        if '@' !in raw || range.None? then Err(BadRange) else Ok(Init(uri.value, range))
  }

  // One pass -------------------------------------------------------------------------------

  /** The variables of the loop of ParseMedia. */
  datatype Scan = Scan(
    playlist: Playlist,
    nextDuration: Option<real>, nextTime: Option<int>, discontinuity: bool, gap: bool,
    init: Option<Init>, range: Option<ByteRange>, implicit: bool,
    previousEnd: Uint64, previousUri: string,
    sequence: Uint64, exhausted: bool, haveSequence: bool,
    haveDiscontinuitySequence: bool, seenDiscontinuity: bool, discontinuitySequence: Uint64, lowLatency: bool)

  function Fresh(): Scan {
    Scan(Playlist(0, 0, 0, [], false), None, None, false, false, None, None, false, 0, "", 0, false, false, false, false, 0, false)
  }

  function TakeSequence(s: Scan, text: string): Result<Scan> {
    if s.playlist.segments != [] || s.haveSequence then Err(BadSequence)
    else
      var parsed := ParseUint(text, MAX_UINT64);
      if parsed.None? then Err(BadSequence)
      else Ok(s.(playlist := s.playlist.(mediaSequence := parsed.value), sequence := parsed.value, haveSequence := true))
  }

  function TakeDiscontinuitySequence(s: Scan, text: string): Result<Scan> {
    if s.playlist.segments != [] || s.haveDiscontinuitySequence || s.seenDiscontinuity then Err(BadDiscontinuity)
    else
      var parsed := ParseUint(text, MAX_UINT64);
      if parsed.None? then Err(BadDiscontinuity)
      else Ok(s.(playlist := s.playlist.(discontinuitySequence := parsed.value),
                 discontinuitySequence := parsed.value, haveDiscontinuitySequence := true))
  }

  function TakeTarget(s: Scan, text: string): Result<Scan> {
    var parsed := ParseUint(text, MAX_DURATION);
    if s.playlist.target != 0 || parsed.None? || parsed.value == 0 then Err(BadTarget)
    else Ok(s.(playlist := s.playlist.(target := parsed.value)))
  }

  function TakeRange(s: Scan, text: string): Result<Scan> {
    var implicit := '@' !in text;
    if s.range.Some? || (implicit && s.previousUri == "") then Err(BadRange)
    else
      var range := RangeOf(text, if implicit then s.previousEnd else 0);
      if range.None? then Err(BadRange) else Ok(s.(range := range, implicit := implicit))
  }

  function TakeDiscontinuity(s: Scan): Result<Scan> {
    if s.discontinuitySequence == MAX_UINT64 then Err(BadDiscontinuity)
    else Ok(s.(seenDiscontinuity := true, discontinuitySequence := s.discontinuitySequence + 1, discontinuity := true))
  }

  function TakeUri(env: Env, s: Scan, line: string): Result<Scan> {
    var uri := Resolve(env, line);
    if s.nextDuration.None? then Err(NoDuration)
    else if s.exhausted then Err(SequenceOverflow)
    else if uri.None? then Err(BadUri)
    else if s.implicit && uri.value != s.previousUri then Err(BadRange)
    else
      var segment := MediaSegment(s.sequence, s.discontinuitySequence, uri.value, s.nextDuration.value, s.nextTime,
                                  s.init, s.range, s.discontinuity, s.gap);
      Ok(s.(playlist := s.playlist.(segments := s.playlist.segments + [segment]),
            previousUri := if s.range.Some? then uri.value else "",
            previousEnd := if s.range.Some? then s.range.value.offset + s.range.value.length else 0,
            exhausted := s.sequence == MAX_UINT64,
            sequence := if s.sequence == MAX_UINT64 then s.sequence else s.sequence + 1,
            nextDuration := None, nextTime := None, range := None,
            discontinuity := false, implicit := false, gap := false))
  }

  function Apply(env: Env, s: Scan, tag: Tag): Result<Scan> {
    match tag
    case Rejected => Err(Unsupported)
    case SequenceTag(text) => TakeSequence(s, text)
    case DiscontinuitySequenceTag(text) => TakeDiscontinuitySequence(s, text)
    case TargetTag(text) => TakeTarget(s, text)
    case InfTag(text) =>
      if s.nextDuration.Some? || DurationOf(env, text).None? then Err(BadDuration)
      else Ok(s.(nextDuration := DurationOf(env, text)))
    case TimeTag(text) => if env.time(text).None? then Err(BadTime) else Ok(s.(nextTime := env.time(text)))
    case MapTag(text) =>
      var init := InitOf(env, text);
      if init.Err? then Err(init.problem) else Ok(s.(init := Some(init.value)))
    case RangeTag(text) => TakeRange(s, text)
    case DiscontinuityTag => TakeDiscontinuity(s)
    case GapTag => Ok(s.(gap := true))
    case EndTag => Ok(s.(playlist := s.playlist.(endList := true)))
    case LowLatencyTag => Ok(s.(lowLatency := true))
    case KeyTag(text) =>
      var attrs := AttrsOf(text);
      if attrs.None? then Err(BadAttributes)
      else if Upper(Attribute(attrs.value, "METHOD")) != "NONE" then Err(Unsupported)
      else Ok(s)
    case Ignored => Ok(s)
    case UriLine(line) => TakeUri(env, s, line)
  }

  function Scanned(env: Env, tags: seq<Tag>): Result<Scan> {
    if tags == [] then Ok(Fresh())
    else
      var before := Scanned(env, tags[..|tags| - 1]);
      if before.Err? then before else Apply(env, before.value, tags[|tags| - 1])
  }

  function TagsOf(lines: seq<string>): (tags: seq<Tag>)
    ensures |tags| == |lines| && forall i | 0 <= i < |tags| :: tags[i] == Classify(lines[i])
  {
    seq(|lines|, i requires 0 <= i < |lines| => Classify(lines[i]))
  }

  function Finish(s: Scan): Result<Playlist> {
    if s.nextDuration.Some? || s.gap then Err(NoUri)
    else if s.playlist.target == 0 then Err(NoTarget)
    else if s.lowLatency && s.playlist.segments == [] then Err(NoSegments)
    else Ok(s.playlist)
  }

  function Utf8Size(s: string): nat {
    if s == "" then 0
    else
      var c := s[|s| - 1] as int;
      Utf8Size(s[..|s| - 1]) + if c < 0x80 then 1 else if c < 0x800 then 2 else if c < 0x1_0000 then 3 else 4
  }

  /** A line as the parser sees it: without a byte order mark and surrounding space. */
  function Clean(line: string): string { Trim(if line != "" && line[0] == '\U{FEFF}' then line[1..] else line) }

  function CleanAll(lines: seq<string>): (r: seq<string>)
    ensures |r| == |lines| && forall i | 0 <= i < |r| :: r[i] == Clean(lines[i])
  {
    seq(|lines|, i requires 0 <= i < |lines| => Clean(lines[i]))
  }

  /** playlistLines */
  function LinesOf(text: string): Result<seq<string>> {
    var lines := CleanAll(Split(text));
    if Utf8Size(text) > MAX_MANIFEST_BYTES then Err(TooLarge)
    else if lines == [] || lines[0] != "#EXTM3U" then Err(BadHeader)
    else Ok(lines)
  }

  function Parsed(env: Env, text: string): Result<Playlist> {
    var lines := LinesOf(text);
    if lines.Err? then Err(lines.problem)
    else
      var s := Scanned(env, TagsOf(lines.value));
      if s.Err? then Err(s.problem) else Finish(s.value)
  }

  /** ParseMedia */
  method ParseMedia(env: Env, text: string) returns (r: Result<Playlist>)
    ensures r == Parsed(env, text)
  {
    var lines := LinesOf(text);
    if lines.Err? { return Err(lines.problem); }
    var s := Fresh();
    ghost var tags := TagsOf(lines.value);
    for i := 0 to |lines.value|
      invariant Scanned(env, tags[..i]) == Ok(s)
    {
      var step := Apply(env, s, Classify(lines.value[i]));
      OneTagMore(env, tags, i, s);
      if step.Err? {
        Stuck(env, tags, i + 1);
        return Err(step.problem);
      }
      s := step.value;
    }
    assert tags[..|tags|] == tags;
    return Finish(s);
  }

  lemma OneTagMore(env: Env, tags: seq<Tag>, i: nat, s: Scan)
    requires i < |tags| && Scanned(env, tags[..i]) == Ok(s)
    ensures Scanned(env, tags[..i + 1]) == Apply(env, s, tags[i])
  {
    assert tags[..i + 1][..i] == tags[..i];
  }

  /** After a rejected line the rest does not matter. */
  lemma {:induction false} Stuck(env: Env, tags: seq<Tag>, i: nat)
    requires i <= |tags| && Scanned(env, tags[..i]).Err?
    ensures Scanned(env, tags) == Scanned(env, tags[..i])
  {
    if i < |tags| {
      var init := tags[..|tags| - 1];
      assert init[..i] == tags[..i];
      Stuck(env, init, i);
    } else {
      assert tags[..i] == tags;
    }
  }

  // What an accepted playlist looks like -----------------------------------------------------

  /** The discontinuity sequence in force before segment i. */
  function DiscontinuityBefore(p: Playlist, i: nat): int
    requires i <= |p.segments|
  {
    if i == 0 then p.discontinuitySequence else p.segments[i - 1].discontinuitySequence
  }

  predicate SegmentFits(p: Playlist, i: nat)
    requires i < |p.segments|
  {
    var segment := p.segments[i];
    && segment.sequence == p.mediaSequence + i && 0.0 <= segment.duration <= MAX_DURATION as real
    && segment.discontinuitySequence >= DiscontinuityBefore(p, i)
    && (segment.discontinuity <==> segment.discontinuitySequence > DiscontinuityBefore(p, i))
  }

  predicate WellFormed(p: Playlist) { forall i | 0 <= i < |p.segments| :: SegmentFits(p, i) }

  predicate Inv(s: Scan) {
    var p, n := s.playlist, |s.playlist.segments|;
    && WellFormed(p) && p.target <= MAX_DURATION
    && (s.nextDuration.Some? ==> 0.0 <= s.nextDuration.value <= MAX_DURATION as real)
    && s.sequence == p.mediaSequence + n - (if s.exhausted then 1 else 0) && (s.exhausted ==> n > 0)
    && s.discontinuitySequence >= DiscontinuityBefore(p, n)
    && (s.discontinuity <==> s.discontinuitySequence > DiscontinuityBefore(p, n))
    && (s.discontinuity ==> s.seenDiscontinuity)
  }

  lemma UriKeeps(env: Env, s: Scan, line: string)
    requires Inv(s) && TakeUri(env, s, line).Ok?
    ensures Inv(TakeUri(env, s, line).value)
  {
    var p, q := s.playlist, TakeUri(env, s, line).value.playlist;
    var n := |p.segments|;
    forall i | 0 <= i < n + 1 ensures SegmentFits(q, i) {
      assert i < n ==> SegmentFits(p, i);
      assert i < n ==> q.segments[i] == p.segments[i];
      assert 0 < i ==> q.segments[i - 1] == p.segments[i - 1];
    }
  }

  lemma SameSegmentsFit(p: Playlist, q: Playlist)
    requires WellFormed(p) && q.segments == p.segments
    requires p.segments == [] || (q.mediaSequence == p.mediaSequence && q.discontinuitySequence == p.discontinuitySequence)
    ensures WellFormed(q)
  {
    forall i | 0 <= i < |q.segments| ensures SegmentFits(q, i) { assert SegmentFits(p, i); }
  }

  /** The two tags that number the playlist come before its segments. */
  lemma NumberingKeeps(env: Env, s: Scan, tag: Tag)
    requires Inv(s) && (tag.SequenceTag? || tag.DiscontinuitySequenceTag?) && Apply(env, s, tag).Ok?
    ensures Inv(Apply(env, s, tag).value) && Apply(env, s, tag).value.playlist.segments == s.playlist.segments
  {
    SameSegmentsFit(s.playlist, Apply(env, s, tag).value.playlist);
  }

  lemma OtherKeeps(env: Env, s: Scan, tag: Tag)
    requires Inv(s) && !tag.UriLine? && Apply(env, s, tag).Ok?
    ensures Inv(Apply(env, s, tag).value) && Apply(env, s, tag).value.playlist.segments == s.playlist.segments
  {
    if tag.SequenceTag? || tag.DiscontinuitySequenceTag? {
      NumberingKeeps(env, s, tag);
    } else {
      SameSegmentsFit(s.playlist, Apply(env, s, tag).value.playlist);
    }
  }

  function Uris(tags: seq<Tag>): nat {
    if tags == [] then 0 else Uris(tags[..|tags| - 1]) + if tags[|tags| - 1].UriLine? then 1 else 0
  }

  lemma {:induction false} ScanKeeps(env: Env, tags: seq<Tag>)
    requires Scanned(env, tags).Ok?
    ensures Inv(Scanned(env, tags).value) && |Scanned(env, tags).value.playlist.segments| == Uris(tags)
  {
    if tags != [] {
      ScanKeeps(env, tags[..|tags| - 1]);
      var s, tag := Scanned(env, tags[..|tags| - 1]).value, tags[|tags| - 1];
      if tag.UriLine? { UriKeeps(env, s, tag.text); } else { OtherKeeps(env, s, tag); }
    }
  }

  /** Every accepted playlist numbers its segments consecutively without wrapping, one per
      URI line, keeps durations in bounds, and marks exactly the segments
      at which the discontinuity sequence grows. */
  lemma ParsedIsWellFormed(env: Env, text: string)
    requires Parsed(env, text).Ok?
    ensures var p := Parsed(env, text).value;
      WellFormed(p) && 0 < p.target <= MAX_DURATION && |p.segments| == Uris(TagsOf(LinesOf(text).value))
  {
    ScanKeeps(env, TagsOf(LinesOf(text).value));
  }

  // Implicit byte ranges -------------------------------------------------------------------

  /** Segment i starts where the byte range of segment i - 1, of the same resource, ends. */
  predicate Continues(segments: seq<MediaSegment>, i: nat)
    requires i < |segments|
  {
    && i > 0 && segments[i - 1].range.Some? && segments[i].range.Some? && segments[i].uri == segments[i - 1].uri
    && segments[i].range.value.offset == segments[i - 1].range.value.offset + segments[i - 1].range.value.length
  }

  /** previousEnd and previousUri describe the last segment. */
  predicate Trails(s: Scan) {
    s.previousUri != "" ==>
      var segments := s.playlist.segments;
      && segments != [] && segments[|segments| - 1].range.Some? && segments[|segments| - 1].uri == s.previousUri
      && segments[|segments| - 1].range.value.offset + segments[|segments| - 1].range.value.length == s.previousEnd
  }

  lemma StepTrails(env: Env, s: Scan, tag: Tag)
    requires Trails(s) && Apply(env, s, tag).Ok?
    ensures Trails(Apply(env, s, tag).value) && s.playlist.segments <= Apply(env, s, tag).value.playlist.segments
  {
  }

  lemma {:induction false} ScanTrails(env: Env, tags: seq<Tag>)
    requires Scanned(env, tags).Ok?
    ensures Trails(Scanned(env, tags).value)
  {
    if tags != [] {
      ScanTrails(env, tags[..|tags| - 1]);
      StepTrails(env, Scanned(env, tags[..|tags| - 1]).value, tags[|tags| - 1]);
    }
  }

  /** From an implicit range tag on: the range waits for the next URI, or continues its
      predecessor in the segment that URI made. */
  predicate Pending(s: Scan, i: nat) {
    var segments := s.playlist.segments;
    if |segments| > i then Continues(segments, i)
    else |segments| == i && s.range.Some? && s.implicit && s.previousUri != "" && s.range.value.offset == s.previousEnd
  }

  lemma UriPending(env: Env, s: Scan, line: string, i: nat)
    requires Pending(s, i) && Trails(s) && TakeUri(env, s, line).Ok?
    ensures Pending(TakeUri(env, s, line).value, i)
  {
    var n, after := |s.playlist.segments|, TakeUri(env, s, line).value.playlist.segments;
    assert |after| == n + 1 && after[..n] == s.playlist.segments;
    if n > i {
      assert after[i] == s.playlist.segments[i] && after[i - 1] == s.playlist.segments[i - 1];
    }
  }

  /** Every other accepted line leaves the segments and a waiting range alone. */
  lemma WaitsOn(env: Env, s: Scan, tag: Tag, i: nat)
    requires Pending(s, i) && !tag.UriLine? && Apply(env, s, tag).Ok?
    ensures Pending(Apply(env, s, tag).value, i)
  {
  }

  lemma StepPending(env: Env, s: Scan, tag: Tag, i: nat)
    requires Pending(s, i) && Trails(s) && Apply(env, s, tag).Ok?
    ensures Pending(Apply(env, s, tag).value, i)
  {
    StepTrails(env, s, tag);
    if tag.UriLine? {
      UriPending(env, s, tag.text, i);
    } else {
      WaitsOn(env, s, tag, i);
    }
  }

  lemma {:induction false} ImplicitWaits(env: Env, tags: seq<Tag>, b: nat)
    requires b < |tags| && Scanned(env, tags).Ok? && tags[b].RangeTag? && '@' !in tags[b].text
    ensures Pending(Scanned(env, tags).value, Uris(tags[..b]))
  {
    var init := tags[..|tags| - 1];
    if b == |init| {
      ScanKeeps(env, init);
      ScanTrails(env, init);
    } else {
      assert init[..b] == tags[..b];
      ImplicitWaits(env, init, b);
      ScanTrails(env, init);
      StepPending(env, Scanned(env, init).value, tags[|tags| - 1], Uris(tags[..b]));
    }
  }

  /** A byte range without an offset continues the previous segment's range: if the line is
      followed by a URI at all, that segment is of the same resource as its predecessor and
      starts exactly where the predecessor's range ended. */
  lemma ImplicitRangesContinue(env: Env, text: string, b: nat)
    requires Parsed(env, text).Ok? && b < |LinesOf(text).value|
    requires var tag := TagsOf(LinesOf(text).value)[b]; tag.RangeTag? && '@' !in tag.text
    ensures var segments, i := Parsed(env, text).value.segments, Uris(TagsOf(LinesOf(text).value)[..b]);
      i < |segments| ==> Continues(segments, i)
  {
    ImplicitWaits(env, TagsOf(LinesOf(text).value), b);
  }
}
