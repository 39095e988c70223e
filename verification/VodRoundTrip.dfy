/** Print, then parse: what the media playlist parser reads in a printed VOD. */
module VodRoundTrip {
  import opened AttributeList
  import opened PlaylistText
  import opened MediaPlaylist
  import opened VodPlaylist

  /** A local name that the parser takes as a URI line and as a quoted attribute. */
  predicate Plain(env: Env, name: string) {
    && Trimmed(name) && '\n' !in name && '"' !in name && name[0] != '#' && name[0] != '\U{FEFF}'
    && env.resolve(name).Some?
  }

  /** Plain names, and a decimal text that rounds back to the duration. */
  predicate Readable(env: Env, p: Printer, s: Segment) {
    && s.duration.Some? && s.duration.value > 0.0 && env.round(Value(p.format(s.duration.value))) == s.duration.value
    && Plain(env, NameOf(p.names, s.path)) && (s.initId != "" ==> Plain(env, InitName(p, s.initId)))
  }

  predicate AllReadable(env: Env, p: Printer, s: seq<Segment>) { forall i | 0 <= i < |s| :: Readable(env, p, s[i]) }

  // Reading single lines ---------------------------------------------------------------------

  /** Lines whose cleaning changes nothing. */
  predicate Clear(line: string) { Trimmed(line) && '\n' !in line && line[0] != '\U{FEFF}' }

  lemma ClearStays(line: string)
    requires Clear(line)
    ensures Clean(line) == line
  {
    TrimmedStays(line);
  }

  /** These lines are read as these tags, for a classification of lines. */
  predicate ReadAs(classify: string -> Tag, lines: seq<string>, tags: seq<Tag>) {
    |lines| == |tags| && forall i | 0 <= i < |lines| :: Clear(lines[i]) && classify(lines[i]) == tags[i]
  }

  lemma OneLine(classify: string -> Tag, line: string, tag: Tag)
    requires Clear(line) && classify(line) == tag
    ensures ReadAs(classify, [line], [tag])
  {
  }

  lemma ReadBoth(classify: string -> Tag, lines: seq<string>, tags: seq<Tag>, more: seq<string>, moreTags: seq<Tag>)
    requires ReadAs(classify, lines, tags) && ReadAs(classify, more, moreTags)
    ensures ReadAs(classify, lines + more, tags + moreTags)
  {
  }

  /** A prefix that differs from the line at position k. */
  lemma NotPrefix(prefix: string, line: string, k: nat)
    requires k < |prefix| && k < |line| && prefix[k] != line[k]
    ensures !(prefix <= line)
  {
  }

  /** No tag is a prefix of a line that does not start with '#'. */
  lemma PlainIsUri(env: Env, name: string)
    requires Plain(env, name)
    ensures ReadAs(Classify, [name], [UriLine(name)])
  {
    NotPrefix("#EXT-X-DEFINE:", name, 0);
    NotPrefix("#EXT-X-I-FRAME-STREAM-INF:", name, 0);
    NotPrefix("#EXT-X-MEDIA-SEQUENCE:", name, 0);
    NotPrefix("#EXT-X-DISCONTINUITY-SEQUENCE:", name, 0);
    NotPrefix("#EXT-X-TARGETDURATION:", name, 0);
    NotPrefix("#EXTINF:", name, 0);
    NotPrefix("#EXT-X-PROGRAM-DATE-TIME:", name, 0);
    NotPrefix("#EXT-X-MAP:", name, 0);
    NotPrefix("#EXT-X-BYTERANGE:", name, 0);
    NotPrefix("#EXT-X-PART:", name, 0);
    NotPrefix("#EXT-X-PART-INF:", name, 0);
    NotPrefix("#EXT-X-PRELOAD-HINT:", name, 0);
    NotPrefix("#EXT-X-SERVER-CONTROL:", name, 0);
    NotPrefix("#EXT-X-RENDITION-REPORT:", name, 0);
    NotPrefix("#EXT-X-SKIP:", name, 0);
    NotPrefix("#EXT-X-KEY:", name, 0);
    NotPrefix("#EXT-X-SESSION-KEY:", name, 0);
    assert name[0] != "#EXT-X-DISCONTINUITY"[0] && name[0] != "#EXT-X-GAP"[0] && name[0] != "#EXT-X-ENDLIST"[0] && name[0] != "#EXT-X-I-FRAMES-ONLY"[0];
  }

  /** A tag whose name starts with V or PL is none that the parser knows. */
  predicate Unknown(line: string) { |line| > 8 && line[0] == '#' && line[4] == '-' && (line[7] == 'V' || (line[7] == 'P' && line[8] == 'L')) }

  lemma UnknownRest(line: string)
    requires Unknown(line)
    ensures ClassifyRest(line) == Ignored
  {
    NotPrefix("#EXT-X-PART:", line, if line[7] == 'V' then 7 else 8);
    NotPrefix("#EXT-X-PART-INF:", line, if line[7] == 'V' then 7 else 8);
    NotPrefix("#EXT-X-PRELOAD-HINT:", line, if line[7] == 'V' then 7 else 8);
    NotPrefix("#EXT-X-SERVER-CONTROL:", line, 7);
    NotPrefix("#EXT-X-RENDITION-REPORT:", line, 7);
    NotPrefix("#EXT-X-SKIP:", line, 7);
    NotPrefix("#EXT-X-KEY:", line, 7);
    NotPrefix("#EXT-X-SESSION-KEY:", line, 7);
    assert "#EXT-X-DISCONTINUITY"[7] == 'D' && "#EXT-X-GAP"[7] == 'G' && "#EXT-X-ENDLIST"[7] == 'E' && "#EXT-X-I-FRAMES-ONLY"[7] == 'I';
  }

  lemma UnknownTag(line: string)
    requires Unknown(line) && Clear(line)
    ensures ReadAs(Classify, [line], [Ignored])
  {
    UnknownRest(line);
    NotPrefix("#EXT-X-DEFINE:", line, 7);
    NotPrefix("#EXT-X-I-FRAME-STREAM-INF:", line, 7);
    NotPrefix("#EXT-X-MEDIA-SEQUENCE:", line, 7);
    NotPrefix("#EXT-X-DISCONTINUITY-SEQUENCE:", line, 7);
    NotPrefix("#EXT-X-TARGETDURATION:", line, 7);
    NotPrefix("#EXTINF:", line, 4);
    NotPrefix("#EXT-X-PROGRAM-DATE-TIME:", line, if line[7] == 'V' then 7 else 8);
    NotPrefix("#EXT-X-MAP:", line, 7);
    NotPrefix("#EXT-X-BYTERANGE:", line, 7);
  }

  lemma FirstLines()
    ensures ReadAs(Classify, ["#EXTM3U"], [Ignored])
    ensures Unknown("#EXT-X-VERSION:7") && Clear("#EXT-X-VERSION:7")
    ensures Unknown("#EXT-X-PLAYLIST-TYPE:VOD") && Clear("#EXT-X-PLAYLIST-TYPE:VOD")
  {
  }

  lemma SequenceLine()
    ensures ReadAs(Classify, ["#EXT-X-MEDIA-SEQUENCE:0"], [SequenceTag("0")])
  {
    var line := "#EXT-X-MEDIA-SEQUENCE:0";
    NotPrefix("#EXT-X-DEFINE:", line, 7);
    NotPrefix("#EXT-X-I-FRAME-STREAM-INF:", line, 7);
    assert line[22..] == "0";
  }

  lemma DiscontinuityLine(line: string)
    requires line == "#EXT-X-DISCONTINUITY"
    ensures ReadAs(Classify, [line], [DiscontinuityTag])
  {
    DiscontinuityTagLine(line);
    assert Clear(line);
    OneLine(Classify, line, DiscontinuityTag);
  }

  lemma DiscontinuityTagLine(line: string)
    requires line == "#EXT-X-DISCONTINUITY"
    ensures Classify(line) == DiscontinuityTag
  {
    assert line[4] == '-' && line[7] == 'D' && line[8] == 'I' && |line| == 20;
    NotPrefix("#EXT-X-DEFINE:", line, 8);
    NotPrefix("#EXT-X-I-FRAME-STREAM-INF:", line, 7);
    NotPrefix("#EXT-X-MEDIA-SEQUENCE:", line, 7);
    NotPrefix("#EXT-X-TARGETDURATION:", line, 7);
    NotPrefix("#EXTINF:", line, 4);
    NotPrefix("#EXT-X-PROGRAM-DATE-TIME:", line, 7);
    NotPrefix("#EXT-X-MAP:", line, 7);
    NotPrefix("#EXT-X-BYTERANGE:", line, 7);
  }

  lemma EndLine()
    ensures ReadAs(Classify, ["#EXT-X-ENDLIST"], [EndTag])
  {
    var line := "#EXT-X-ENDLIST";
    NotPrefix("#EXT-X-DEFINE:", line, 7);
    NotPrefix("#EXT-X-I-FRAME-STREAM-INF:", line, 7);
    NotPrefix("#EXT-X-MEDIA-SEQUENCE:", line, 7);
    NotPrefix("#EXT-X-DISCONTINUITY-SEQUENCE:", line, 7);
    NotPrefix("#EXT-X-TARGETDURATION:", line, 7);
    NotPrefix("#EXTINF:", line, 4);
    NotPrefix("#EXT-X-PROGRAM-DATE-TIME:", line, 7);
    NotPrefix("#EXT-X-MAP:", line, 7);
    NotPrefix("#EXT-X-BYTERANGE:", line, 7);
  }

  lemma TargetLine(digits: string)
    requires digits != "" && AllDigits(digits)
    ensures ReadAs(Classify, ["#EXT-X-TARGETDURATION:" + digits], [TargetTag(digits)])
  {
    var line := "#EXT-X-TARGETDURATION:" + digits;
    assert "#EXT-X-TARGETDURATION:" <= line && line[22..] == digits && line[|line| - 1] == digits[|digits| - 1];
    assert line[7] == 'T';
    NotPrefix("#EXT-X-DEFINE:", line, 7);
    NotPrefix("#EXT-X-I-FRAME-STREAM-INF:", line, 7);
    NotPrefix("#EXT-X-MEDIA-SEQUENCE:", line, 7);
    NotPrefix("#EXT-X-DISCONTINUITY-SEQUENCE:", line, 7);
  }

  lemma InfLine(d: Decimal)
    ensures ReadAs(Classify, ["#EXTINF:" + Show(d) + ","], [InfTag(Show(d) + ",")])
  {
    var line, text := "#EXTINF:" + Show(d) + ",", Show(d) + ",";
    assert line == "#EXTINF:" + text;
    InfClear(d);
    InfTagLine(line, text);
    OneLine(Classify, line, InfTag(text));
  }

  lemma InfClear(d: Decimal)
    ensures Clear("#EXTINF:" + Show(d) + ",")
  {
    var line := "#EXTINF:" + Show(d) + ",";
    NoBreaks(d);
    assert line[|line| - 1] == ',';
  }

  lemma InfTagLine(line: string, text: string)
    requires line == "#EXTINF:" + text
    ensures Classify(line) == InfTag(text)
  {
    assert line[4] == 'I' && line[8..] == text;
    NotPrefix("#EXT-X-DEFINE:", line, 4);
    NotPrefix("#EXT-X-I-FRAME-STREAM-INF:", line, 4);
    NotPrefix("#EXT-X-MEDIA-SEQUENCE:", line, 4);
    NotPrefix("#EXT-X-DISCONTINUITY-SEQUENCE:", line, 4);
    NotPrefix("#EXT-X-TARGETDURATION:", line, 4);
  }

  lemma MapLine(name: string)
    requires '\n' !in name
    ensures ReadAs(Classify, ["#EXT-X-MAP:URI=\"" + name + "\""], [MapTag("URI=\"" + name + "\"")])
  {
    var line, text := "#EXT-X-MAP:URI=\"" + name + "\"", "URI=\"" + name + "\"";
    assert line == "#EXT-X-MAP:" + text;
    MapClear(name);
    MapTagLine(line, text);
    OneLine(Classify, line, MapTag(text));
  }

  lemma MapClear(name: string)
    requires '\n' !in name
    ensures Clear("#EXT-X-MAP:URI=\"" + name + "\"")
  {
    var line := "#EXT-X-MAP:URI=\"" + name + "\"";
    assert line[|line| - 1] == '"';
  }

  lemma MapTagLine(line: string, text: string)
    requires line == "#EXT-X-MAP:" + text
    ensures Classify(line) == MapTag(text)
  {
    assert line[4] == '-' && line[7] == 'M' && line[8] == 'A' && line[11..] == text;
    NotPrefix("#EXT-X-DEFINE:", line, 7);
    NotPrefix("#EXT-X-I-FRAME-STREAM-INF:", line, 7);
    NotPrefix("#EXT-X-MEDIA-SEQUENCE:", line, 8);
    NotPrefix("#EXT-X-DISCONTINUITY-SEQUENCE:", line, 7);
    NotPrefix("#EXT-X-TARGETDURATION:", line, 7);
    NotPrefix("#EXTINF:", line, 4);
    NotPrefix("#EXT-X-PROGRAM-DATE-TIME:", line, 7);
  }

  /** The URI attribute alone. */
  lemma UriAttribute(name: string)
    requires '"' !in name
    ensures AttrsOf("URI=\"" + name + "\"") == Some(map["URI" := name])
  {
    var attrs := [Attr("URI", name, true)];
    var raw := "URI=\"" + name + "\"";
    assert attrs[1..] == [];
    assert ShowAttrs(attrs) == raw;
    assert Entries(attrs) == [Entry("URI", name)];
    AttrsRoundTrip(raw, 0, attrs, map[]);
  }

  lemma ReadMap(env: Env, name: string)
    requires Plain(env, name)
    ensures InitOf(env, "URI=\"" + name + "\"") == Ok(Init(env.resolve(name).value, None))
  {
    UriAttribute(name);
    TrimmedStays(name);
  }

  lemma ReadDuration(env: Env, d: Decimal)
    ensures var r := env.round(Value(d));
      DurationOf(env, Show(d) + ",") == if r < 0.0 || r > MAX_DURATION as real then None else Some(r)
  {
    var text := Show(d) + ",";
    NoBreaks(d);
    assert forall j | 0 <= j < |Show(d)| :: text[j] == Show(d)[j];
    FindAt(text, 0, {','}, |Show(d)|);
    assert text[..|Show(d)|] == Show(d);
    ShowRoundTrip(d);
  }

  // Reading the whole text -------------------------------------------------------------------

  function HeaderTags(target: nat): seq<Tag> {
    [Ignored, Ignored, Ignored] + [TargetTag(Digits(target, 1))] + [SequenceTag("0")]
  }

  function OpeningTags(last: string, s: Segment, p: Printer): seq<Tag> {
    (if s.discontinuity then [DiscontinuityTag] else [])
    + if s.initId != last && s.initId != "" then [MapTag("URI=\"" + InitName(p, s.initId) + "\"")] else []
  }

  function ClosingTags(s: Segment, p: Printer): seq<Tag>
    requires s.duration.Some?
  {
    [InfTag(Show(p.format(s.duration.value)) + ",")] + [UriLine(NameOf(p.names, s.path))]
  }

  function BodyTags(s: seq<Segment>, p: Printer): seq<Tag>
    requires Finite(s)
  {
    if s == [] then []
    else
      var before := s[..|s| - 1];
      BodyTags(before, p) + OpeningTags(LastInit(before), s[|s| - 1], p) + ClosingTags(s[|s| - 1], p)
  }

  lemma HeaderIsRead(target: nat)
    ensures ReadAs(Classify, Header(target), HeaderTags(target))
  {
    FirstLines();
    UnknownTag("#EXT-X-VERSION:7");
    UnknownTag("#EXT-X-PLAYLIST-TYPE:VOD");
    TargetLine(Digits(target, 1));
    SequenceLine();
    JoinHeader(Classify, "#EXT-X-TARGETDURATION:" + Digits(target, 1), TargetTag(Digits(target, 1)));
  }

  lemma JoinHeader(f: string -> Tag, target: string, tag: Tag)
    requires ReadAs(f, ["#EXTM3U"], [Ignored]) && ReadAs(f, ["#EXT-X-VERSION:7"], [Ignored])
    requires ReadAs(f, ["#EXT-X-PLAYLIST-TYPE:VOD"], [Ignored]) && ReadAs(f, [target], [tag])
    requires ReadAs(f, ["#EXT-X-MEDIA-SEQUENCE:0"], [SequenceTag("0")])
    ensures ReadAs(f, ["#EXTM3U", "#EXT-X-VERSION:7", "#EXT-X-PLAYLIST-TYPE:VOD", target, "#EXT-X-MEDIA-SEQUENCE:0"],
                   [Ignored, Ignored, Ignored] + [tag] + [SequenceTag("0")])
  {
    ReadBoth(f, ["#EXTM3U"], [Ignored], ["#EXT-X-VERSION:7"], [Ignored]);
    ReadBoth(f, ["#EXTM3U"] + ["#EXT-X-VERSION:7"], [Ignored] + [Ignored], ["#EXT-X-PLAYLIST-TYPE:VOD"], [Ignored]);
    ReadBoth(f, [target], [tag], ["#EXT-X-MEDIA-SEQUENCE:0"], [SequenceTag("0")]);
    ReadBoth(f, ["#EXTM3U"] + ["#EXT-X-VERSION:7"] + ["#EXT-X-PLAYLIST-TYPE:VOD"], [Ignored] + [Ignored] + [Ignored],
             [target] + ["#EXT-X-MEDIA-SEQUENCE:0"], [tag] + [SequenceTag("0")]);
    assert ["#EXTM3U", "#EXT-X-VERSION:7", "#EXT-X-PLAYLIST-TYPE:VOD", target, "#EXT-X-MEDIA-SEQUENCE:0"]
        == ["#EXTM3U"] + ["#EXT-X-VERSION:7"] + ["#EXT-X-PLAYLIST-TYPE:VOD"] + ([target] + ["#EXT-X-MEDIA-SEQUENCE:0"]);
    assert [Ignored, Ignored, Ignored] + [tag] + [SequenceTag("0")]
        == [Ignored] + [Ignored] + [Ignored] + ([tag] + [SequenceTag("0")]);
  }

  lemma OpeningIsRead(env: Env, last: string, s: Segment, p: Printer)
    requires Readable(env, p, s)
    ensures ReadAs(Classify, Opening(last, s, p), OpeningTags(last, s, p))
  {
    if s.discontinuity { DiscontinuityLine("#EXT-X-DISCONTINUITY"); }
    if s.initId != last && s.initId != "" { MapLine(InitName(p, s.initId)); }
    ReadBoth(Classify, if s.discontinuity then ["#EXT-X-DISCONTINUITY"] else [], if s.discontinuity then [DiscontinuityTag] else [],
             if s.initId != last && s.initId != "" then ["#EXT-X-MAP:URI=\"" + InitName(p, s.initId) + "\""] else [],
             if s.initId != last && s.initId != "" then [MapTag("URI=\"" + InitName(p, s.initId) + "\"")] else []);
  }

  lemma ClosingIsRead(env: Env, s: Segment, p: Printer)
    requires Readable(env, p, s)
    ensures ReadAs(Classify, Closing(s, p), ClosingTags(s, p))
  {
    var d, name := p.format(s.duration.value), NameOf(p.names, s.path);
    InfLine(d);
    PlainIsUri(env, name);
    ReadBoth(Classify, ["#EXTINF:" + Show(d) + ","], [InfTag(Show(d) + ",")], [name], [UriLine(name)]);
    assert Closing(s, p) == ["#EXTINF:" + Show(d) + ","] + [name];
  }

  lemma {:induction false} BodyIsRead(env: Env, s: seq<Segment>, p: Printer)
    requires Finite(s) && AllReadable(env, p, s)
    ensures ReadAs(Classify, Body(s, p), BodyTags(s, p))
  {
    if s != [] {
      var before, last := s[..|s| - 1], s[|s| - 1];
      BodyIsRead(env, before, p);
      OpeningIsRead(env, LastInit(before), last, p);
      ClosingIsRead(env, last, p);
      ReadBoth(Classify, Body(before, p), BodyTags(before, p), Opening(LastInit(before), last, p), OpeningTags(LastInit(before), last, p));
      ReadBoth(Classify, Body(before, p) + Opening(LastInit(before), last, p), BodyTags(before, p) + OpeningTags(LastInit(before), last, p),
               Closing(last, p), ClosingTags(last, p));
    }
  }

  lemma PrintedIsRead(env: Env, s: seq<Segment>, p: Printer)
    requires Finite(s) && AllReadable(env, p, s)
    ensures ReadAs(Classify, Printed(s, p), HeaderTags(TargetOf(s)) + BodyTags(s, p) + [EndTag])
  {
    HeaderIsRead(TargetOf(s));
    BodyIsRead(env, s, p);
    EndLine();
    ReadBoth(Classify, Header(TargetOf(s)), HeaderTags(TargetOf(s)), Body(s, p), BodyTags(s, p));
    ReadBoth(Classify, Header(TargetOf(s)) + Body(s, p), HeaderTags(TargetOf(s)) + BodyTags(s, p), ["#EXT-X-ENDLIST"], [EndTag]);
  }

  lemma LinesAreRead(lines: seq<string>, tags: seq<Tag>)
    requires ReadAs(Classify, lines, tags)
    ensures CleanAll(Split(Joined(lines))) == lines && TagsOf(lines) == tags
  {
    SplitJoined(lines);
    forall i | 0 <= i < |lines| ensures Clean(lines[i]) == lines[i] { ClearStays(lines[i]); }
    assert CleanAll(lines) == lines;
  }

  // What is read ---------------------------------------------------------------------------

  /** Tags read one after the other. */
  function Run(env: Env, s: Scan, tags: seq<Tag>): Result<Scan>
    decreases |tags|
  {
    if tags == [] then Ok(s)
    else
      var step := Apply(env, s, tags[0]);
      if step.Err? then step else Run(env, step.value, tags[1..])
  }

  lemma {:induction false} ScannedOn(env: Env, tags: seq<Tag>, more: seq<Tag>)
    ensures Scanned(env, tags + more) == if Scanned(env, tags).Err? then Scanned(env, tags) else Run(env, Scanned(env, tags).value, more)
    decreases |more|
  {
    if more == [] {
      assert tags + more == tags;
    } else {
      var one := tags + [more[0]];
      assert one[..|tags|] == tags && tags + more == one + more[1..];
      ScannedOn(env, one, more[1..]);
      if Scanned(env, one).Err? { Stuck(env, tags + more, |one|); assert (tags + more)[..|one|] == one; }
    }
  }

  function Discontinuities(s: seq<Segment>): (n: nat)
    ensures n <= |s|
  {
    if s == [] then 0 else Discontinuities(s[..|s| - 1]) + if s[|s| - 1].discontinuity then 1 else 0
  }

  function Resolved(env: Env, name: string): string { if env.resolve(name).Some? then env.resolve(name).value else "" }

  /** The initialisation section in force after these segments: the last one announced. */
  function Announced(env: Env, p: Printer, s: seq<Segment>): Option<Init> {
    if s == [] then None
    else
      var id, before := s[|s| - 1].initId, s[..|s| - 1];
      if id != LastInit(before) && id != "" then Some(Init(Resolved(env, InitName(p, id)), None)) else Announced(env, p, before)
  }

  /** How the last of these segments is read. */
  function Listed(env: Env, p: Printer, s: seq<Segment>): MediaSegment
    requires 0 < |s| <= MAX_MANIFEST_BYTES && Finite(s)
  {
    var last := s[|s| - 1];
    MediaSegment(|s| - 1, Discontinuities(s), Resolved(env, NameOf(p.names, last.path)), last.duration.value, None,
                 Announced(env, p, s), None, last.discontinuity, false)
  }

  function Listing(env: Env, p: Printer, s: seq<Segment>): (r: seq<MediaSegment>)
    requires |s| <= MAX_MANIFEST_BYTES && Finite(s)
    ensures |r| == |s| && forall i | 0 <= i < |r| :: r[i] == Listed(env, p, s[..i + 1])
  {
    if s == [] then []
    else
      var before := s[..|s| - 1];
      var r := Listing(env, p, before) + [Listed(env, p, s)];
      assert s[..|s|] == s;
      assert forall i | 0 <= i < |r| :: r[i] == Listed(env, p, s[..i + 1]) by {
        forall i | 0 <= i < |before| ensures r[i] == Listed(env, p, s[..i + 1]) { assert before[..i + 1] == s[..i + 1]; }
      }
      r
  }

  /** The state of the parser after the printed entries of these segments. */
  function After(env: Env, p: Printer, s: seq<Segment>, target: nat): Scan
    requires |s| <= MAX_MANIFEST_BYTES && Finite(s)
  {
    Scan(Playlist(target, 0, 0, Listing(env, p, s), false), None, None, false, false, Announced(env, p, s), None, false, 0, "",
         |s|, false, true, false, Discontinuities(s) > 0, Discontinuities(s), false)
  }

  lemma HeaderScans(env: Env, p: Printer, target: nat)
    ensures Scanned(env, HeaderTags(target))
         == if 0 < target <= MAX_DURATION then Ok(After(env, p, [], target)) else Err(BadTarget)
  {
    var tags := HeaderTags(target);
    var three, four := [Ignored, Ignored, Ignored], [Ignored, Ignored, Ignored] + [TargetTag(Digits(target, 1))];
    assert three[..2] == [Ignored, Ignored] && three[..2][..1] == [Ignored] && [Ignored][..0] == [];
    assert Scanned(env, [Ignored]) == Ok(Fresh());
    assert Scanned(env, [Ignored, Ignored]) == Ok(Fresh()) by { assert [Ignored, Ignored][..1] == [Ignored]; }
    assert Scanned(env, three) == Ok(Fresh());
    assert four[..3] == three && tags[..4] == four;
    assert Scanned(env, four) == Apply(env, Fresh(), TargetTag(Digits(target, 1)));
    assert ParseUint("0", MAX_UINT64) == Some(0) by { assert "0"[..0] == ""; }
  }

  lemma Grown(env: Env, p: Printer, s: seq<Segment>, last: Segment)
    requires |s| < MAX_MANIFEST_BYTES && Finite(s) && last.duration.Some?
    ensures var t := s + [last];
      && Discontinuities(t) == Discontinuities(s) + (if last.discontinuity then 1 else 0)
      && Listing(env, p, t) == Listing(env, p, s) + [Listed(env, p, t)]
      && Announced(env, p, t) == (if last.initId != LastInit(s) && last.initId != ""
           then Some(Init(Resolved(env, InitName(p, last.initId)), None)) else Announced(env, p, s))
  {
    assert (s + [last])[..|s|] == s;
  }

  lemma RunOpening(env: Env, s: Scan, discontinuity: bool, announced: bool, name: string)
    requires s.discontinuitySequence < MAX_UINT64 && !s.discontinuity && (announced ==> Plain(env, name))
    ensures Run(env, s, (if discontinuity then [DiscontinuityTag] else []) + if announced then [MapTag("URI=\"" + name + "\"")] else [])
         == Ok(s.(discontinuity := discontinuity, seenDiscontinuity := s.seenDiscontinuity || discontinuity,
                  discontinuitySequence := s.discontinuitySequence + (if discontinuity then 1 else 0),
                  init := if announced then Some(Init(Resolved(env, name), None)) else s.init))
  {
    var text := "URI=\"" + name + "\"";
    if announced { ReadMap(env, name); }
    RunOpeningOf(env, s, discontinuity, announced, text, if announced then Some(Init(Resolved(env, name), None)) else None);
  }

  lemma RunOpeningOf(env: Env, s: Scan, discontinuity: bool, announced: bool, text: string, init: Option<Init>)
    requires s.discontinuitySequence < MAX_UINT64 && !s.discontinuity
    requires announced ==> init.Some? && InitOf(env, text) == Ok(init.value)
    ensures Run(env, s, (if discontinuity then [DiscontinuityTag] else []) + if announced then [MapTag(text)] else [])
         == Ok(s.(discontinuity := discontinuity, seenDiscontinuity := s.seenDiscontinuity || discontinuity,
                  discontinuitySequence := s.discontinuitySequence + (if discontinuity then 1 else 0),
                  init := if announced then init else s.init))
  {
    var first: seq<Tag> := if discontinuity then [DiscontinuityTag] else [];
    MarkDiscontinuity(env, s, discontinuity);
    RunOn(env, s, first, if announced then [MapTag(text)] else []);
    RunOne(env, Run(env, s, first).value, MapTag(text));
  }

  lemma MarkDiscontinuity(env: Env, s: Scan, discontinuity: bool)
    requires s.discontinuitySequence < MAX_UINT64 && !s.discontinuity
    ensures Run(env, s, if discontinuity then [DiscontinuityTag] else [])
         == Ok(s.(discontinuity := discontinuity, seenDiscontinuity := s.seenDiscontinuity || discontinuity,
                  discontinuitySequence := s.discontinuitySequence + (if discontinuity then 1 else 0)))
  {
    RunOne(env, s, DiscontinuityTag);
  }

  lemma RunOne(env: Env, s: Scan, tag: Tag)
    ensures Run(env, s, [tag]) == Apply(env, s, tag) && Run(env, s, []) == Ok(s)
  {
    assert [tag][1..] == [];
  }

  /** The state between the two groups of lines of one entry. */
  function Opened(env: Env, p: Printer, s: seq<Segment>, target: nat, last: Segment): Scan
    requires |s| < MAX_MANIFEST_BYTES && Finite(s) && last.duration.Some?
  {
    After(env, p, s, target).(discontinuity := last.discontinuity, init := Announced(env, p, s + [last]),
      seenDiscontinuity := Discontinuities(s + [last]) > 0, discontinuitySequence := Discontinuities(s + [last]))
  }

  lemma Opens(env: Env, p: Printer, s: seq<Segment>, target: nat, last: Segment)
    requires |s| < MAX_MANIFEST_BYTES && Finite(s) && Readable(env, p, last)
    ensures Run(env, After(env, p, s, target), OpeningTags(LastInit(s), last, p)) == Ok(Opened(env, p, s, target, last))
  {
    Grown(env, p, s, last);
    RunOpening(env, After(env, p, s, target), last.discontinuity, last.initId != LastInit(s) && last.initId != "", InitName(p, last.initId));
  }

  lemma {:induction false} RunOn(env: Env, s: Scan, tags: seq<Tag>, more: seq<Tag>)
    requires Run(env, s, tags).Ok?
    ensures Run(env, s, tags + more) == Run(env, Run(env, s, tags).value, more)
    decreases |tags|
  {
    if tags == [] {
      assert tags + more == more;
    } else {
      assert (tags + more)[1..] == tags[1..] + more;
      RunOn(env, Apply(env, s, tags[0]).value, tags[1..], more);
    }
  }

  lemma RunClosing(env: Env, s: Scan, d: Decimal, name: string)
    requires s.nextDuration.None? && !s.exhausted && !s.implicit && s.range.None? && s.sequence < MAX_UINT64
    requires Plain(env, name) && 0.0 <= env.round(Value(d)) <= MAX_DURATION as real
    ensures Run(env, s, [InfTag(Show(d) + ",")] + [UriLine(name)])
         == TakeUri(env, s.(nextDuration := Some(env.round(Value(d)))), name)
    ensures TakeUri(env, s.(nextDuration := Some(env.round(Value(d)))), name).Ok?
  {
    ReadDuration(env, d);
    TrimmedStays(name);
    var next := s.(nextDuration := Some(env.round(Value(d))));
    assert Apply(env, s, InfTag(Show(d) + ",")) == Ok(next);
    var tags := [InfTag(Show(d) + ",")] + [UriLine(name)];
    assert tags[1..] == [UriLine(name)] && [UriLine(name)][1..] == [];
    assert Apply(env, next, UriLine(name)) == TakeUri(env, next, name);
    assert Run(env, next, [UriLine(name)]) == TakeUri(env, next, name);
  }

  /** The fold step: the URI line of the last entry leads to the state after it. */
  lemma TakesLast(env: Env, p: Printer, s: seq<Segment>, target: nat, last: Segment)
    requires |s| < MAX_MANIFEST_BYTES && Finite(s) && last.duration.Some? && Plain(env, NameOf(p.names, last.path))
    ensures TakeUri(env, Opened(env, p, s, target, last).(nextDuration := last.duration), NameOf(p.names, last.path))
         == Ok(After(env, p, s + [last], target))
  {
    Grown(env, p, s, last);
    TrimmedStays(NameOf(p.names, last.path));
    assert (s + [last])[|s|] == last;
  }

  lemma Closes(env: Env, p: Printer, s: seq<Segment>, target: nat, last: Segment)
    requires |s| < MAX_MANIFEST_BYTES && Finite(s) && Readable(env, p, last) && last.duration.value <= MAX_DURATION as real
    ensures Run(env, Opened(env, p, s, target, last), ClosingTags(last, p)) == Ok(After(env, p, s + [last], target))
  {
    RunClosing(env, Opened(env, p, s, target, last), p.format(last.duration.value), NameOf(p.names, last.path));
    TakesLast(env, p, s, target, last);
  }

  predicate Short(s: seq<Segment>) { forall i | 0 <= i < |s| :: s[i].duration.Some? && s[i].duration.value <= 86400.0 }

  lemma EntryScans(env: Env, p: Printer, s: seq<Segment>, target: nat, last: Segment)
    requires |s| < MAX_MANIFEST_BYTES && Finite(s) && Readable(env, p, last) && last.duration.value <= MAX_DURATION as real
    ensures Run(env, After(env, p, s, target), OpeningTags(LastInit(s), last, p) + ClosingTags(last, p))
         == Ok(After(env, p, s + [last], target))
  {
    Opens(env, p, s, target, last);
    Closes(env, p, s, target, last);
    RunOn(env, After(env, p, s, target), OpeningTags(LastInit(s), last, p), ClosingTags(last, p));
  }

  lemma BodyTagsGrow(header: seq<Tag>, s: seq<Segment>, last: Segment, p: Printer)
    requires Finite(s) && last.duration.Some?
    ensures header + BodyTags(s + [last], p)
         == header + BodyTags(s, p) + (OpeningTags(LastInit(s), last, p) + ClosingTags(last, p))
  {
    assert (s + [last])[..|s|] == s;
    RegroupTags(header, BodyTags(s, p), OpeningTags(LastInit(s), last, p), ClosingTags(last, p));
  }

  lemma RegroupTags(a: seq<Tag>, b: seq<Tag>, c: seq<Tag>, d: seq<Tag>)
    ensures a + (b + c + d) == a + b + (c + d)
  {
  }

  lemma {:induction false} BodyScans(env: Env, p: Printer, s: seq<Segment>, target: nat)
    requires |s| <= MAX_MANIFEST_BYTES && AllReadable(env, p, s) && Short(s) && 0 < target <= MAX_DURATION
    ensures Scanned(env, HeaderTags(target) + BodyTags(s, p)) == Ok(After(env, p, s, target))
  {
    var header := HeaderTags(target);
    if s == [] {
      HeaderScans(env, p, target);
      assert header + BodyTags(s, p) == header;
    } else {
      var before, last := s[..|s| - 1], s[|s| - 1];
      assert before + [last] == s;
      BodyScans(env, p, before, target);
      BodyTagsGrow(header, before, last, p);
      EntryScans(env, p, before, target, last);
      ScannedOn(env, header + BodyTags(before, p), OpeningTags(LastInit(before), last, p) + ClosingTags(last, p));
    }
  }

  // The round trip -------------------------------------------------------------------------

  lemma {:induction false} SizeBound(lines: seq<string>)
    ensures Utf8Size(Joined(lines)) >= |lines|
  {
    if lines != [] {
      SizeBound(lines[..|lines| - 1]);
      var text := Joined(lines);
      var front := Joined(lines[..|lines| - 1]);
      SizeGrows(front, lines[|lines| - 1]);
      assert text[..|text| - 1] == front + lines[|lines| - 1];
    }
  }

  lemma {:induction false} SizeGrows(s: string, t: string)
    ensures Utf8Size(s + t) >= Utf8Size(s)
    decreases |t|
  {
    if t == "" {
      assert s + t == s;
    } else {
      assert (s + t)[..|s + t| - 1] == s + t[..|t| - 1];
      SizeGrows(s, t[..|t| - 1]);
    }
  }

  lemma {:induction false} BodySize(s: seq<Segment>, p: Printer)
    requires Finite(s)
    ensures |Body(s, p)| >= |s|
  {
    if s != [] { BodySize(s[..|s| - 1], p); }
  }

  lemma {:induction false} LongestBounds(s: seq<Segment>)
    requires Finite(s)
    ensures Longest(s) <= MAX_DURATION as real <==> Short(s)
    ensures Longest(s) >= 0.0
  {
    if s != [] {
      LongestBounds(s[..|s| - 1]);
      assert Short(s) <==> Short(s[..|s| - 1]) && s[|s| - 1].duration.value <= MAX_DURATION as real by {
        assert forall i | 0 <= i < |s| - 1 :: s[..|s| - 1][i] == s[i];
      }
    }
  }

  lemma TargetFits(s: seq<Segment>)
    requires Finite(s)
    ensures 0 < TargetOf(s) && (TargetOf(s) <= MAX_DURATION <==> Short(s))
  {
    LongestBounds(s);
  }

  function Outcome(env: Env, tags: seq<Tag>): Result<Playlist> {
    var s := Scanned(env, tags);
    if s.Err? then Err(s.problem) else Finish(s.value)
  }

  lemma TagsParse(env: Env, p: Printer, s: seq<Segment>)
    requires |s| <= MAX_MANIFEST_BYTES && AllReadable(env, p, s) && Finite(s)
    ensures Outcome(env, HeaderTags(TargetOf(s)) + BodyTags(s, p) + [EndTag])
         == if Short(s) then Ok(Playlist(TargetOf(s), 0, 0, Listing(env, p, s), true)) else Err(BadTarget)
  {
    TargetFits(s);
    HeaderScans(env, p, TargetOf(s));
    if Short(s) {
      BodyScans(env, p, s, TargetOf(s));
      Ended(env, HeaderTags(TargetOf(s)) + BodyTags(s, p), After(env, p, s, TargetOf(s)));
    } else {
      RejectedEarly(env, HeaderTags(TargetOf(s)), BodyTags(s, p), [EndTag]);
    }
  }

  lemma Ended(env: Env, body: seq<Tag>, s: Scan)
    requires Scanned(env, body) == Ok(s)
    ensures Outcome(env, body + [EndTag]) == Finish(s.(playlist := s.playlist.(endList := true)))
  {
    ScannedOn(env, body, [EndTag]);
    RunOne(env, s, EndTag);
  }

  lemma RejectedEarly(env: Env, header: seq<Tag>, body: seq<Tag>, end: seq<Tag>)
    requires Scanned(env, header).Err?
    ensures Outcome(env, header + body + end) == Err(Scanned(env, header).problem)
  {
    ScannedOn(env, header, body);
    ScannedOn(env, header + body, end);
  }

  lemma TextParses(env: Env, lines: seq<string>, tags: seq<Tag>)
    requires ReadAs(Classify, lines, tags) && lines != [] && lines[0] == "#EXTM3U" && Utf8Size(Joined(lines)) <= MAX_MANIFEST_BYTES
    ensures Parsed(env, Joined(lines)) == Outcome(env, tags)
  {
    LinesAreRead(lines, tags);
    assert LinesOf(Joined(lines)) == Ok(lines);
  }

  /** A printed VOD that fits into a manifest is accepted exactly when no duration exceeds
      the parser's bound, and is then read back entry by entry. */
  lemma PrintThenParse(env: Env, p: Printer, s: seq<Segment>)
    requires Finite(s) && AllReadable(env, p, s) && Utf8Size(Joined(Printed(s, p))) <= 4 * 1024 * 1024
    ensures |s| <= MAX_MANIFEST_BYTES
    ensures Parsed(env, Joined(Printed(s, p)))
         == if Short(s) then Ok(Playlist(TargetOf(s), 0, 0, Listing(env, p, s), true)) else Err(BadTarget)
  {
    SizeBound(Printed(s, p));
    BodySize(s, p);
    PrintedIsRead(env, s, p);
    TextParses(env, Printed(s, p), HeaderTags(TargetOf(s)) + BodyTags(s, p) + [EndTag]);
    TagsParse(env, p, s);
  }

  /** The initialisation section that a segment was archived with. */
  function Wanted(env: Env, p: Printer, s: Segment): Option<Init> {
    if s.initId == "" then None else Some(Init(Resolved(env, InitName(p, s.initId)), None))
  }

  /** No segment without an initialisation section follows one that has one, and the first
      section is not named like the printer's start marker. */
  predicate InitsAreExpressible(s: seq<Segment>) {
    (s != [] ==> s[0].initId != "\0") && forall i | 0 < i < |s| && s[i].initId == "" :: s[i - 1].initId == ""
  }

  lemma {:induction false} LastAnnounced(env: Env, p: Printer, s: seq<Segment>)
    requires s != [] && InitsAreExpressible(s)
    ensures Announced(env, p, s) == Wanted(env, p, s[|s| - 1])
  {
    var before := s[..|s| - 1];
    if before != [] { LastAnnounced(env, p, before); }
  }

  /** Segment i is read with the initialisation section it was archived with. */
  predicate InitReadBack(env: Env, p: Printer, s: seq<Segment>, i: nat)
    requires i < |s| <= MAX_MANIFEST_BYTES && Finite(s)
  {
    Listing(env, p, s)[i].init == Wanted(env, p, s[i])
  }

  lemma NeverAnnounced(env: Env, p: Printer, s: seq<Segment>)
    requires |s| == 1 && s[0].initId == "\0"
    ensures Announced(env, p, s) == None
  {
    assert s[..0] == [];
    assert LastInit(s[..|s| - 1]) == "\0";
  }

  lemma InexpressibleIsLost(env: Env, p: Printer, s: seq<Segment>) returns (i: nat)
    requires |s| <= MAX_MANIFEST_BYTES && Finite(s) && !InitsAreExpressible(s)
    ensures i < |s| && !InitReadBack(env, p, s, i)
  {
    if s[0].initId == "\0" {
      NeverAnnounced(env, p, s[..1]);
      assert Listing(env, p, s)[0] == Listed(env, p, s[..0 + 1]);
      return 0;
    }
    var k :| 0 < k < |s| && s[k].initId == "" && s[k - 1].initId != "";
    StaysAnnounced(env, p, s, k);
    assert Wanted(env, p, s[k]) == None && Wanted(env, p, s[k - 1]).Some?;
    return if InitReadBack(env, p, s, k) then k - 1 else k;
  }

  lemma StaysAnnounced(env: Env, p: Printer, s: seq<Segment>, k: nat)
    requires 0 < k < |s| <= MAX_MANIFEST_BYTES && Finite(s) && s[k].initId == ""
    ensures Listing(env, p, s)[k].init == Listing(env, p, s)[k - 1].init
  {
    assert s[..k + 1][..k] == s[..k];
    var list := Listing(env, p, s);
    assert list[k] == Listed(env, p, s[..k + 1]) && list[k - 1] == Listed(env, p, s[..k - 1 + 1]);
    assert s[..k - 1 + 1] == s[..k];
  }

  /** Every segment is read with the initialisation section it was archived with if and only
      if the archive is expressible: a playlist cannot take an EXT-X-MAP back. */
  lemma InitsReadBackIff(env: Env, p: Printer, s: seq<Segment>)
    requires |s| <= MAX_MANIFEST_BYTES && Finite(s)
    ensures InitsAreExpressible(s) <==> forall i | 0 <= i < |s| :: InitReadBack(env, p, s, i)
  {
    if InitsAreExpressible(s) {
      forall i | 0 <= i < |s| ensures InitReadBack(env, p, s, i) { LastAnnounced(env, p, s[..i + 1]); }
    } else {
      var i := InexpressibleIsLost(env, p, s);
    }
  }
}
