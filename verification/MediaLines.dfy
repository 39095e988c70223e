/** What ParseMedia makes of a text, line by line: the numbers of the playlist, and for
    each URI line the segment that the lines before it describe. */
module MediaLines {
  import opened AttributeList
  import opened PlaylistText
  import opened MediaPlaylist
  import T = MediaTags

  /** The text is accepted; these are its cleaned lines and the playlist. */
  predicate Accepted(env: Env, text: string, lines: seq<string>, p: Playlist) {
    LinesOf(text) == Ok(lines) && Parsed(env, text) == Ok(p)
  }

  predicate IsUri(line: string) { line != "" && line[0] != '#' }

  /** No URI line from a up to u. */
  predicate Between(lines: seq<string>, a: nat, u: nat) { a < u <= |lines| && forall b | a <= b < u :: !IsUri(lines[b]) }

  function Starting(prefix: string): string -> bool { (line: string) => prefix <= line }

  function Being(text: string): string -> bool { (line: string) => line == text }

  /** Such a line stands before u, behind the URI line before it. */
  predicate SomeSince(lines: seq<string>, kind: string -> bool, u: nat) {
    exists a | 0 <= a < |lines| :: kind(lines[a]) && Between(lines, a, u)
  }

  /** Such lines before position n. */
  function CountBefore(lines: seq<string>, kind: string -> bool, n: nat): nat
    requires n <= |lines|
  {
    if n == 0 then 0 else CountBefore(lines, kind, n - 1) + if kind(lines[n - 1]) then 1 else 0
  }

  // Lines and tags --------------------------------------------------------------------------

  /** A prefix that differs from the line at position k. */
  lemma {:induction false} Differs(prefix: string, line: string, k: nat)
    requires k < |prefix| && k < |line| && prefix[k] != line[k]
    ensures !(prefix <= line)
  {
  }

  lemma {:induction false} UriTag(line: string)
    ensures Classify(line).UriLine? <==> IsUri(line)
    ensures IsUri(line) ==> Classify(line) == UriLine(line)
  {
    if IsUri(line) {
      Differs("#EXT-X-DEFINE:", line, 0);
      Differs("#EXT-X-I-FRAME-STREAM-INF:", line, 0);
      Differs("#EXT-X-MEDIA-SEQUENCE:", line, 0);
      Differs("#EXT-X-DISCONTINUITY-SEQUENCE:", line, 0);
      Differs("#EXT-X-TARGETDURATION:", line, 0);
      Differs("#EXTINF:", line, 0);
      Differs("#EXT-X-PROGRAM-DATE-TIME:", line, 0);
      Differs("#EXT-X-MAP:", line, 0);
      Differs("#EXT-X-BYTERANGE:", line, 0);
      UriRest(line);
    }
  }

  lemma {:induction false} UriRest(line: string)
    requires IsUri(line)
    ensures ClassifyRest(line) == UriLine(line)
  {
    Differs("#EXT-X-PART:", line, 0);
    Differs("#EXT-X-PART-INF:", line, 0);
    Differs("#EXT-X-PRELOAD-HINT:", line, 0);
    Differs("#EXT-X-SERVER-CONTROL:", line, 0);
    Differs("#EXT-X-RENDITION-REPORT:", line, 0);
    Differs("#EXT-X-SKIP:", line, 0);
    Differs("#EXT-X-KEY:", line, 0);
    Differs("#EXT-X-SESSION-KEY:", line, 0);
    Differs("#", line, 0);
    assert line[0] != "#EXT-X-DISCONTINUITY"[0] && line[0] != "#EXT-X-GAP"[0];
    assert line[0] != "#EXT-X-ENDLIST"[0] && line[0] != "#EXT-X-I-FRAMES-ONLY"[0];
  }

  lemma {:induction false} SequenceTagIs(line: string)
    ensures Classify(line).SequenceTag? <==> "#EXT-X-MEDIA-SEQUENCE:" <= line
    ensures "#EXT-X-MEDIA-SEQUENCE:" <= line ==> Classify(line) == SequenceTag(line[22..])
  {
    if "#EXT-X-MEDIA-SEQUENCE:" <= line {
      Differs("#EXT-X-DEFINE:", line, 7);
      Differs("#EXT-X-I-FRAME-STREAM-INF:", line, 7);
    }
  }

  lemma {:induction false} BaseTagIs(line: string)
    ensures Classify(line).DiscontinuitySequenceTag? <==> "#EXT-X-DISCONTINUITY-SEQUENCE:" <= line
    ensures "#EXT-X-DISCONTINUITY-SEQUENCE:" <= line ==> Classify(line) == DiscontinuitySequenceTag(line[30..])
  {
    if "#EXT-X-DISCONTINUITY-SEQUENCE:" <= line {
      Differs("#EXT-X-DEFINE:", line, 8);
      Differs("#EXT-X-I-FRAME-STREAM-INF:", line, 7);
      Differs("#EXT-X-MEDIA-SEQUENCE:", line, 7);
    }
  }

  lemma {:induction false} TargetTagIs(line: string)
    ensures Classify(line).TargetTag? <==> "#EXT-X-TARGETDURATION:" <= line
    ensures "#EXT-X-TARGETDURATION:" <= line ==> Classify(line) == TargetTag(line[22..])
  {
    if "#EXT-X-TARGETDURATION:" <= line {
      Differs("#EXT-X-DEFINE:", line, 7);
      Differs("#EXT-X-I-FRAME-STREAM-INF:", line, 7);
      Differs("#EXT-X-MEDIA-SEQUENCE:", line, 7);
      Differs("#EXT-X-DISCONTINUITY-SEQUENCE:", line, 7);
    }
  }

  lemma {:induction false} InfTagIs(line: string)
    ensures Classify(line).InfTag? <==> "#EXTINF:" <= line
    ensures "#EXTINF:" <= line ==> Classify(line) == InfTag(line[8..])
  {
    if "#EXTINF:" <= line {
      Differs("#EXT-X-DEFINE:", line, 4);
      Differs("#EXT-X-I-FRAME-STREAM-INF:", line, 4);
      Differs("#EXT-X-MEDIA-SEQUENCE:", line, 4);
      Differs("#EXT-X-DISCONTINUITY-SEQUENCE:", line, 4);
      Differs("#EXT-X-TARGETDURATION:", line, 4);
    }
  }

  lemma {:induction false} TimeTagIs(line: string)
    ensures Classify(line).TimeTag? <==> "#EXT-X-PROGRAM-DATE-TIME:" <= line
    ensures "#EXT-X-PROGRAM-DATE-TIME:" <= line ==> Classify(line) == TimeTag(line[25..])
  {
    if "#EXT-X-PROGRAM-DATE-TIME:" <= line {
      Differs("#EXT-X-DEFINE:", line, 7);
      Differs("#EXT-X-I-FRAME-STREAM-INF:", line, 7);
      Differs("#EXT-X-MEDIA-SEQUENCE:", line, 7);
      Differs("#EXT-X-DISCONTINUITY-SEQUENCE:", line, 7);
      Differs("#EXT-X-TARGETDURATION:", line, 7);
      Differs("#EXTINF:", line, 4);
    }
  }

  lemma {:induction false} MapTagIs(line: string)
    ensures Classify(line).MapTag? <==> "#EXT-X-MAP:" <= line
    ensures "#EXT-X-MAP:" <= line ==> Classify(line) == MapTag(line[11..])
  {
    if "#EXT-X-MAP:" <= line {
      Differs("#EXT-X-DEFINE:", line, 7);
      Differs("#EXT-X-I-FRAME-STREAM-INF:", line, 7);
      Differs("#EXT-X-MEDIA-SEQUENCE:", line, 8);
      Differs("#EXT-X-DISCONTINUITY-SEQUENCE:", line, 7);
      Differs("#EXT-X-TARGETDURATION:", line, 7);
      Differs("#EXTINF:", line, 4);
      Differs("#EXT-X-PROGRAM-DATE-TIME:", line, 7);
    }
  }

  lemma {:induction false} RangeTagIs(line: string)
    ensures Classify(line).RangeTag? <==> "#EXT-X-BYTERANGE:" <= line
    ensures "#EXT-X-BYTERANGE:" <= line ==> Classify(line) == RangeTag(line[17..])
  {
    if "#EXT-X-BYTERANGE:" <= line {
      Differs("#EXT-X-DEFINE:", line, 7);
      Differs("#EXT-X-I-FRAME-STREAM-INF:", line, 7);
      Differs("#EXT-X-MEDIA-SEQUENCE:", line, 7);
      Differs("#EXT-X-DISCONTINUITY-SEQUENCE:", line, 7);
      Differs("#EXT-X-TARGETDURATION:", line, 7);
      Differs("#EXTINF:", line, 4);
      Differs("#EXT-X-PROGRAM-DATE-TIME:", line, 7);
      Differs("#EXT-X-MAP:", line, 7);
    }
  }

  /** None of the tags with a value. */
  lemma {:induction false} BareTag(line: string)
    requires |line| >= 10 && line[..7] == "#EXT-X-" && (line == "#EXT-X-GAP" || line == "#EXT-X-DISCONTINUITY" || line == "#EXT-X-ENDLIST")
    ensures Classify(line) == ClassifyRest(line)
  {
    Differs("#EXT-X-DEFINE:", line, if line == "#EXT-X-DISCONTINUITY" then 8 else 7);
    Differs("#EXT-X-I-FRAME-STREAM-INF:", line, 7);
    Differs("#EXT-X-MEDIA-SEQUENCE:", line, 7);
    Differs("#EXT-X-TARGETDURATION:", line, 7);
    Differs("#EXTINF:", line, 4);
    Differs("#EXT-X-PROGRAM-DATE-TIME:", line, 7);
    Differs("#EXT-X-MAP:", line, 7);
    Differs("#EXT-X-BYTERANGE:", line, 7);
    assert !("#EXT-X-DISCONTINUITY-SEQUENCE:" <= line);
  }

  lemma {:induction false} BareTagsAre(line: string)
    ensures Classify(line).GapTag? <==> line == "#EXT-X-GAP"
    ensures Classify(line).DiscontinuityTag? <==> line == "#EXT-X-DISCONTINUITY"
    ensures Classify(line).EndTag? <==> line == "#EXT-X-ENDLIST"
  {
    if line == "#EXT-X-GAP" || line == "#EXT-X-DISCONTINUITY" || line == "#EXT-X-ENDLIST" { BareTag(line); }
  }

  lemma {:induction false} AcceptedScans(env: Env, text: string, lines: seq<string>, p: Playlist)
    requires Accepted(env, text, lines, p)
    ensures var tags := TagsOf(lines);
      var s := T.StateAt(env, tags, |tags|);
      Scanned(env, tags).Ok? && s.playlist == p && p.target != 0 && s.nextDuration.None? && !s.gap
  {
    var tags := TagsOf(lines);
    assert tags[..|tags|] == tags;
    assert Scanned(env, tags).Ok? && Finish(Scanned(env, tags).value) == Ok(p);
  }

  lemma {:induction false} BetweenIs(lines: seq<string>, a: nat, u: nat)
    requires a < u <= |lines|
    ensures T.Since(T.UriAt(TagsOf(lines)), a, u) <==> Between(lines, a, u)
  {
    forall b: nat | b < |lines| ensures T.UriAt(TagsOf(lines))(b) <==> IsUri(lines[b]) { UriTag(lines[b]); }
  }

  /** A kind of tag and a kind of line that belong together. */
  predicate Twins(lines: seq<string>, tags: Tag -> bool, kind: string -> bool) {
    forall b | 0 <= b < |lines| :: tags(Classify(lines[b])) <==> kind(lines[b])
  }

  lemma {:induction false} AnyIs(lines: seq<string>, tags: Tag -> bool, kind: string -> bool, u: nat)
    requires u <= |lines| && Twins(lines, tags, kind)
    ensures T.Any(TagsOf(lines), tags, T.UriAt(TagsOf(lines)), u) <==> SomeSince(lines, kind, u)
  {
    var all := TagsOf(lines);
    forall a | 0 <= a < u { BetweenIs(lines, a, u); }
    if T.Any(all, tags, T.UriAt(all), u) {
      var a :| 0 <= a < |all| && tags(all[a]) && T.Since(T.UriAt(all), a, u);
      BetweenIs(lines, a, u);
      assert kind(lines[a]);
    }
    if SomeSince(lines, kind, u) {
      var a :| 0 <= a < |lines| && kind(lines[a]) && Between(lines, a, u);
      BetweenIs(lines, a, u);
      assert tags(all[a]);
    }
  }

  /** The last such line before u. */
  predicate LastLine(lines: seq<string>, kind: string -> bool, a: nat, u: nat) {
    a < u <= |lines| && kind(lines[a]) && forall b | a < b < u :: !kind(lines[b])
  }

  lemma {:induction false} LatestIs(lines: seq<string>, tags: Tag -> bool, kind: string -> bool, ends: nat -> bool, a: nat, u: nat)
    requires Twins(lines, tags, kind) && LastLine(lines, kind, a, u) && T.Since(ends, a, u)
    ensures T.Latest(TagsOf(lines), tags, ends, a, u)
  {
    forall b | a < b < u ensures !tags(T.TagAt(TagsOf(lines), b)) { assert !kind(lines[b]); }
  }

  lemma {:induction false} CountIs(lines: seq<string>, u: nat)
    requires u <= |lines|
    ensures Uris(TagsOf(lines)[..u]) == CountBefore(lines, IsUri, u)
  {
    if u > 0 {
      CountIs(lines, u - 1);
      assert TagsOf(lines)[..u][..u - 1] == TagsOf(lines)[..u - 1];
      UriTag(lines[u - 1]);
    } else {
      assert TagsOf(lines)[..0] == [];
    }
  }

  lemma {:induction false} MarksAre(tags: seq<Tag>, lines: seq<string>, kind: string -> bool, u: nat)
    requires u <= |lines| && forall b | 0 <= b < |lines| :: T.TagAt(tags, b).DiscontinuityTag? <==> kind(lines[b])
    ensures T.Marks(tags, u) == CountBefore(lines, kind, u)
  {
    if u > 0 { MarksAre(tags, lines, kind, u - 1); }
  }

  lemma {:induction false} DiscontinuitiesAre(lines: seq<string>, u: nat)
    requires u <= |lines|
    ensures T.Marks(TagsOf(lines), u) == CountBefore(lines, Being("#EXT-X-DISCONTINUITY"), u)
  {
    forall b | 0 <= b < |lines| ensures T.TagAt(TagsOf(lines), b).DiscontinuityTag? <==> Being("#EXT-X-DISCONTINUITY")(lines[b]) {
      BareTagsAre(lines[b]);
    }
    MarksAre(TagsOf(lines), lines, Being("#EXT-X-DISCONTINUITY"), u);
  }

  // The numbers of the playlist -----------------------------------------------------------------

  /** The n of an EXT-X-MEDIA-SEQUENCE line, or 0, numbers the first segment; the others follow. */
  lemma {:induction false} MediaSequenceIsRead(env: Env, text: string, lines: seq<string>, p: Playlist, a: nat, n: nat, width: nat)
    requires Accepted(env, text, lines, p) && a < |lines|
    ensures n <= MAX_UINT64 && lines[a] == "#EXT-X-MEDIA-SEQUENCE:" + Digits(n, width) ==> p.mediaSequence == n
    ensures (forall b | 0 <= b < |lines| :: !("#EXT-X-MEDIA-SEQUENCE:" <= lines[b])) ==> p.mediaSequence == 0
    ensures forall i | 0 <= i < |p.segments| :: p.segments[i].sequence == p.mediaSequence + i
  {
    ParsedIsWellFormed(env, text);
    SegmentsFollow(p);
    FirstSequence(env, text, lines, p, a, n, width);
  }

  lemma {:induction false} SegmentsFollow(p: Playlist)
    requires WellFormed(p)
    ensures forall i | 0 <= i < |p.segments| :: p.segments[i].sequence == p.mediaSequence + i
  {
    forall i | 0 <= i < |p.segments| ensures p.segments[i].sequence == p.mediaSequence + i { assert SegmentFits(p, i); }
  }

  lemma {:induction false} FirstSequence(env: Env, text: string, lines: seq<string>, p: Playlist, a: nat, n: nat, width: nat)
    requires Accepted(env, text, lines, p) && a < |lines|
    ensures n <= MAX_UINT64 && lines[a] == "#EXT-X-MEDIA-SEQUENCE:" + Digits(n, width) ==> p.mediaSequence == n
    ensures (forall b | 0 <= b < |lines| :: !("#EXT-X-MEDIA-SEQUENCE:" <= lines[b])) ==> p.mediaSequence == 0
  {
    var tags := TagsOf(lines);
    AcceptedScans(env, text, lines, p);
    T.SequenceAt(env, tags, |tags|);
    T.NumbersAt(env, tags, |tags|);
    SequenceTagIs(lines[a]);
    if lines[a] == "#EXT-X-MEDIA-SEQUENCE:" + Digits(n, width) {
      assert lines[a][22..] == Digits(n, width);
      T.IsLatest(env, tags, a, |tags|);
    }
    forall b | 0 <= b < |lines| ensures tags[b].SequenceTag? <==> "#EXT-X-MEDIA-SEQUENCE:" <= lines[b] { SequenceTagIs(lines[b]); }
  }

  /** The number of an EXT-X-DISCONTINUITY-SEQUENCE line, or 0, is the playlist's. */
  lemma {:induction false} DiscontinuitySequenceIsRead(env: Env, text: string, lines: seq<string>, p: Playlist, a: nat, n: nat, width: nat)
    requires Accepted(env, text, lines, p) && a < |lines|
    ensures n <= MAX_UINT64 && lines[a] == "#EXT-X-DISCONTINUITY-SEQUENCE:" + Digits(n, width) ==> p.discontinuitySequence == n
    ensures (forall b | 0 <= b < |lines| :: !("#EXT-X-DISCONTINUITY-SEQUENCE:" <= lines[b])) ==> p.discontinuitySequence == 0
  {
    var tags := TagsOf(lines);
    AcceptedScans(env, text, lines, p);
    T.BaseAt(env, tags, |tags|);
    T.NumbersAt(env, tags, |tags|);
    BaseTagIs(lines[a]);
    if lines[a] == "#EXT-X-DISCONTINUITY-SEQUENCE:" + Digits(n, width) {
      assert lines[a][30..] == Digits(n, width);
      T.IsLatest(env, tags, a, |tags|);
    }
    forall b | 0 <= b < |lines| ensures tags[b].DiscontinuitySequenceTag? <==> "#EXT-X-DISCONTINUITY-SEQUENCE:" <= lines[b] { BaseTagIs(lines[b]); }
  }

  /** Every accepted text has a target duration, that of its EXT-X-TARGETDURATION line; it is over
      exactly if it has an EXT-X-ENDLIST line. */
  lemma {:induction false} TargetAndEndAreRead(env: Env, text: string, lines: seq<string>, p: Playlist, a: nat, n: nat, width: nat)
    requires Accepted(env, text, lines, p) && a < |lines|
    ensures lines[a] == "#EXT-X-TARGETDURATION:" + Digits(n, width) ==> p.target == n
    ensures exists b | 0 <= b < |lines| :: "#EXT-X-TARGETDURATION:" <= lines[b]
    ensures p.endList <==> "#EXT-X-ENDLIST" in lines
  {
    var tags := TagsOf(lines);
    AcceptedScans(env, text, lines, p);
    T.TargetAt(env, tags, |tags|);
    T.EndAt(env, tags, |tags|);
    TargetTagIs(lines[a]);
    if lines[a] == "#EXT-X-TARGETDURATION:" + Digits(n, width) {
      assert lines[a][22..] == Digits(n, width);
      T.IsLatest(env, tags, a, |tags|);
    }
    forall b | 0 <= b < |lines|
      ensures (tags[b].TargetTag? <==> "#EXT-X-TARGETDURATION:" <= lines[b]) && (tags[b].EndTag? <==> lines[b] == "#EXT-X-ENDLIST")
    {
      TargetTagIs(lines[b]);
      BareTagsAre(lines[b]);
    }
  }

  // The segments --------------------------------------------------------------------------------

  /** The place of the segment that the URI line at u makes: one segment for each URI line. */
  function Place(lines: seq<string>, u: nat): nat
    requires u <= |lines|
  {
    CountBefore(lines, IsUri, u)
  }

  lemma {:induction false} UriIsRead(env: Env, text: string, lines: seq<string>, p: Playlist, u: nat)
    requires Accepted(env, text, lines, p) && u < |lines| && IsUri(lines[u])
    ensures |p.segments| == Place(lines, |lines|) && Place(lines, u) < |p.segments|
    ensures env.resolve(lines[u]) == Some(p.segments[Place(lines, u)].uri)
    ensures var tags, segment := TagsOf(lines), p.segments[Place(lines, u)];
      var s := T.StateAt(env, tags, u);
      && Scanned(env, tags).Ok? && s.nextDuration == Some(segment.duration) && s.nextTime == segment.time && s.init == segment.init
      && s.range == segment.range && s.discontinuity == segment.discontinuity && s.gap == segment.gap
      && segment.discontinuitySequence == p.discontinuitySequence + CountBefore(lines, Being("#EXT-X-DISCONTINUITY"), u)
  {
    AcceptedScans(env, text, lines, p);
    UriTag(lines[u]);
    CountIs(lines, u);
    DiscontinuitiesAre(lines, u);
    CountIs(lines, |lines|);
    assert TagsOf(lines)[..|lines|] == TagsOf(lines);
    T.SegmentAt(env, TagsOf(lines), u);
    ParsedIsWellFormed(env, text);
    CleanedStays(text, lines, u);
  }

  lemma {:induction false} CleanedStays(text: string, lines: seq<string>, u: nat)
    requires LinesOf(text) == Ok(lines) && u < |lines|
    ensures Trim(lines[u]) == lines[u]
  {
    var raw := Split(text)[u];
    var k, l := TrimMeans(if raw != "" && raw[0] == '\U{FEFF}' then raw[1..] else raw);
    TrimmedStays(lines[u]);
  }

  /** A segment is a gap exactly if an EXT-X-GAP line stands between the previous URI and its own,
      and a discontinuity exactly if an EXT-X-DISCONTINUITY line does; such lines are counted. */
  lemma {:induction false} MarksAreRead(env: Env, text: string, lines: seq<string>, p: Playlist, u: nat)
    requires Accepted(env, text, lines, p) && u < |lines| && IsUri(lines[u])
    ensures Place(lines, u) < |p.segments|
    ensures var segment := p.segments[Place(lines, u)];
      && (segment.gap <==> SomeSince(lines, Being("#EXT-X-GAP"), u))
      && (segment.discontinuity <==> SomeSince(lines, Being("#EXT-X-DISCONTINUITY"), u))
      && segment.discontinuitySequence == p.discontinuitySequence + CountBefore(lines, Being("#EXT-X-DISCONTINUITY"), u)
  {
    UriIsRead(env, text, lines, p, u);
    T.GapAt(env, TagsOf(lines), u);
    T.DiscontinuityAt(env, TagsOf(lines), u);
    forall b | 0 <= b < |lines|
      ensures T.GAP(Classify(lines[b])) <==> Being("#EXT-X-GAP")(lines[b])
      ensures T.DISCONTINUITY(Classify(lines[b])) <==> Being("#EXT-X-DISCONTINUITY")(lines[b])
    {
      BareTagsAre(lines[b]);
    }
    AnyIs(lines, T.GAP, Being("#EXT-X-GAP"), u);
    AnyIs(lines, T.DISCONTINUITY, Being("#EXT-X-DISCONTINUITY"), u);
  }

  /** An EXTINF line between the previous URI and its own says the duration (there is exactly one). */
  lemma {:induction false} DurationIsRead(env: Env, text: string, lines: seq<string>, p: Playlist, u: nat, a: nat, d: Decimal, title: string)
    requires Accepted(env, text, lines, p) && u < |lines| && IsUri(lines[u])
    requires Between(lines, a, u) && lines[a] == "#EXTINF:" + (Show(d) + title) && (title == "" || title[0] == ',')
    ensures Place(lines, u) < |p.segments| && p.segments[Place(lines, u)].duration == env.round(Value(d))
  {
    UriIsRead(env, text, lines, p, u);
    BetweenIs(lines, a, u);
    InfTagIs(lines[a]);
    T.IsLatest(env, TagsOf(lines), a, u);
    T.DurationAt(env, TagsOf(lines), u);
    assert lines[a][8..] == Show(d) + title;
    ReadsDuration(env, d, title);
  }

  lemma {:induction false} ReadsDuration(env: Env, d: Decimal, title: string)
    requires title == "" || title[0] == ','
    ensures DurationOf(env, Show(d) + title).Some? ==> DurationOf(env, Show(d) + title) == Some(env.round(Value(d)))
  {
    var rest := Show(d) + title;
    NoBreaks(d);
    assert forall j | 0 <= j < |Show(d)| :: rest[j] == Show(d)[j];
    FindAt(rest, 0, {','}, |Show(d)|);
    assert rest[..|Show(d)|] == Show(d);
    ShowRoundTrip(d);
  }

  lemma {:induction false} SomeDuration(env: Env, text: string, lines: seq<string>, p: Playlist, u: nat)
    requires Accepted(env, text, lines, p) && u < |lines| && IsUri(lines[u])
    ensures SomeSince(lines, Starting("#EXTINF:"), u)
  {
    UriIsRead(env, text, lines, p, u);
    T.DurationAt(env, TagsOf(lines), u);
    InfsAre(lines);
    AnyIs(lines, T.INF, Starting("#EXTINF:"), u);
  }

  lemma {:induction false} NoSecondDuration(env: Env, text: string, lines: seq<string>, p: Playlist, a: nat, b: nat)
    requires Accepted(env, text, lines, p) && b < |lines| && Between(lines, a, b) && "#EXTINF:" <= lines[a]
    ensures !("#EXTINF:" <= lines[b])
  {
    AcceptedScans(env, text, lines, p);
    BetweenIs(lines, a, b);
    InfTagIs(lines[a]);
    InfTagIs(lines[b]);
    T.OncePerUri(env, TagsOf(lines), a, b);
  }

  const DATE := "#EXT-X-PROGRAM-DATE-TIME:"

  lemma {:induction false} DatesAre(lines: seq<string>)
    ensures Twins(lines, T.TIME, Starting(DATE))
  {
    forall b | 0 <= b < |lines| ensures T.TIME(Classify(lines[b])) <==> Starting(DATE)(lines[b]) { TimeTagIs(lines[b]); }
  }

  /** The last program date between the previous URI and its own is the segment's. */
  lemma {:induction false} TimeIsRead(env: Env, text: string, lines: seq<string>, p: Playlist, u: nat, a: nat)
    requires Accepted(env, text, lines, p) && u < |lines| && IsUri(lines[u])
    requires LastLine(lines, Starting(DATE), a, u) && Between(lines, a, u)
    ensures Place(lines, u) < |p.segments| && p.segments[Place(lines, u)].time == env.time(lines[a][|DATE|..])
  {
    UriIsRead(env, text, lines, p, u);
    DatesAre(lines);
    BetweenIs(lines, a, u);
    LatestIs(lines, T.TIME, Starting(DATE), T.UriAt(TagsOf(lines)), a, u);
    T.TimeAt(env, TagsOf(lines), u);
    TimeTagIs(lines[a]);
  }

  /** Without one it has no time. */
  lemma {:induction false} NoTimeIsRead(env: Env, text: string, lines: seq<string>, p: Playlist, u: nat)
    requires Accepted(env, text, lines, p) && u < |lines| && IsUri(lines[u])
    ensures Place(lines, u) < |p.segments| && (p.segments[Place(lines, u)].time.Some? <==> SomeSince(lines, Starting(DATE), u))
  {
    UriIsRead(env, text, lines, p, u);
    DatesAre(lines);
    T.TimeAt(env, TagsOf(lines), u);
    AnyIs(lines, T.TIME, Starting(DATE), u);
  }

  /** A byte range with an offset between the previous URI and its own is the segment's; without a
      line of this kind it has none. */
  lemma {:induction false} RangeIsRead(env: Env, text: string, lines: seq<string>, p: Playlist, u: nat, a: nat,
                                       length: nat, offset: nat, v: nat, w: nat)
    requires Accepted(env, text, lines, p) && u < |lines| && IsUri(lines[u])
    ensures Place(lines, u) < |p.segments|
    ensures Between(lines, a, u) && lines[a] == "#EXT-X-BYTERANGE:" + (Digits(length, v) + "@" + Digits(offset, w))
      ==> var range := p.segments[Place(lines, u)].range; range.Some? && range.value.length == length && range.value.offset == offset
    ensures p.segments[Place(lines, u)].range.Some? <==> SomeSince(lines, Starting("#EXT-X-BYTERANGE:"), u)
  {
    UriIsRead(env, text, lines, p, u);
    T.RangeAt(env, TagsOf(lines), u);
    forall b | 0 <= b < |lines| ensures T.RANGE(Classify(lines[b])) <==> Starting("#EXT-X-BYTERANGE:")(lines[b]) { RangeTagIs(lines[b]); }
    AnyIs(lines, T.RANGE, Starting("#EXT-X-BYTERANGE:"), u);
    if Between(lines, a, u) && lines[a] == "#EXT-X-BYTERANGE:" + (Digits(length, v) + "@" + Digits(offset, w)) {
      BetweenIs(lines, a, u);
      RangeTagIs(lines[a]);
      T.IsLatest(env, TagsOf(lines), a, u);
      assert lines[a][17..] == Digits(length, v) + "@" + Digits(offset, w);
      assert (Digits(length, v) + "@" + Digits(offset, w))[|Digits(length, v)|] == '@';
      ReadsRange(length, offset, v, w);
    }
  }

  lemma {:induction false} ReadsRange(length: nat, offset: nat, v: nat, w: nat)
    ensures var r := RangeOf(Digits(length, v) + "@" + Digits(offset, w), 0);
      r.Some? ==> r.value.length == length && r.value.offset == offset
  {
    var front, back := Digits(length, v), Digits(offset, w);
    var text := front + "@" + back;
    assert forall j | 0 <= j < |front| :: text[j] == front[j];
    FindAt(text, 0, {'@'}, |front|);
    assert text[..|front|] == front && text[|front| + 1..] == back;
  }

  const MAP := "#EXT-X-MAP:"

  lemma {:induction false} MapsAre(lines: seq<string>)
    ensures Twins(lines, T.MAP, Starting(MAP))
  {
    forall b | 0 <= b < |lines| ensures T.MAP(Classify(lines[b])) <==> Starting(MAP)(lines[b]) { MapTagIs(lines[b]); }
  }

  /** Attribute number j of the list is this one. */
  predicate Gives(attrs: seq<Attr>, j: nat, key: string, value: string) { j < |attrs| && attrs[j].key == key && attrs[j].value == value }

  /** The last EXT-X-MAP line before the URI, however far, is the segment's initialisation section: its
      URI attribute, resolved, and its byte range, if it has one. */
  lemma {:induction false} InitIsRead(env: Env, text: string, lines: seq<string>, p: Playlist, u: nat, a: nat,
                                      attrs: seq<Attr>, j: nat, reference: string)
    requires Accepted(env, text, lines, p) && u < |lines| && IsUri(lines[u]) && LastLine(lines, Starting(MAP), a, u)
    requires lines[a][|MAP|..] == ShowAttrs(attrs) && (forall x | x in attrs :: Printable(x)) && Untaken(Entries(attrs), {})
    requires Gives(attrs, j, "URI", reference)
    ensures Place(lines, u) < |p.segments| && p.segments[Place(lines, u)].init.Some? && Trim(reference) != ""
    ensures var init := p.segments[Place(lines, u)].init.value;
      && env.resolve(Trim(reference)) == Some(init.uri)
      && (init.range.Some? <==> Listed(Entries(attrs), "BYTERANGE"))
      && (forall i, raw | Gives(attrs, i, "BYTERANGE", raw) :: '@' in raw)
      && forall i, length, offset, v, w | Gives(attrs, i, "BYTERANGE", Digits(length, v) + "@" + Digits(offset, w)) ::
           init.range.Some? && init.range.value.length == length && init.range.value.offset == offset
  {
    UriIsRead(env, text, lines, p, u);
    MapsAre(lines);
    assert T.Since(T.NOWHERE, a, u);
    LatestIs(lines, T.MAP, Starting(MAP), T.NOWHERE, a, u);
    T.InitAt(env, TagsOf(lines), u);
    assert T.Any(TagsOf(lines), T.MAP, T.NOWHERE, u);
    MapTagIs(lines[a]);
    ReadsInit(env, attrs, j, reference);
  }

  lemma {:induction false} ReadsAttrs(attrs: seq<Attr>)
    requires attrs != [] && (forall x | x in attrs :: Printable(x)) && Untaken(Entries(attrs), {})
    ensures AttrsOf(ShowAttrs(attrs)).Some?
    ensures var m := AttrsOf(ShowAttrs(attrs)).value;
      (forall k :: k in m <==> Listed(Entries(attrs), k)) && forall i | 0 <= i < |attrs| :: attrs[i].key in m && m[attrs[i].key] == attrs[i].value
  {
    var m: map<string, string> := map[];
    assert m.Keys == {};
    ShowsSomething(attrs);
    AttrsRoundTrip(ShowAttrs(attrs), 0, attrs, m);
    AddAllMeans(m, Entries(attrs));
    EntriesAre(attrs);
  }

  lemma {:induction false} EntriesAre(attrs: seq<Attr>)
    ensures forall i | 0 <= i < |attrs| :: Entries(attrs)[i] == Entry(attrs[i].key, attrs[i].value)
  {
    if attrs != [] { EntriesAre(attrs[1..]); }
  }

  lemma {:induction false} ReadsInit(env: Env, attrs: seq<Attr>, j: nat, reference: string)
    requires (forall x | x in attrs :: Printable(x)) && Untaken(Entries(attrs), {}) && Gives(attrs, j, "URI", reference)
    ensures var r := T.InitIn(env, ShowAttrs(attrs));
      r.Some? ==>
        && Trim(reference) != "" && env.resolve(Trim(reference)) == Some(r.value.uri)
        && (r.value.range.Some? <==> Listed(Entries(attrs), "BYTERANGE"))
        && (forall i, raw | Gives(attrs, i, "BYTERANGE", raw) :: '@' in raw)
        && forall i, length, offset, v, w | Gives(attrs, i, "BYTERANGE", Digits(length, v) + "@" + Digits(offset, w)) ::
             r.value.range.Some? && r.value.range.value.length == length && r.value.range.value.offset == offset
  {
    ReadsAttrs(attrs);
    var r := T.InitIn(env, ShowAttrs(attrs));
    forall i, length, offset, v, w | r.Some? && Gives(attrs, i, "BYTERANGE", Digits(length, v) + "@" + Digits(offset, w))
      ensures r.value.range.Some? && r.value.range.value.length == length && r.value.range.value.offset == offset
    {
      ReadsRange(length, offset, v, w);
    }
  }

  // What is refused -------------------------------------------------------------------------------

  lemma {:induction false} InfsAre(lines: seq<string>)
    ensures Twins(lines, T.INF, Starting("#EXTINF:"))
  {
    forall b | 0 <= b < |lines| ensures T.INF(Classify(lines[b])) <==> Starting("#EXTINF:")(lines[b]) { InfTagIs(lines[b]); }
  }

  lemma {:induction false} GapsAre(lines: seq<string>)
    ensures Twins(lines, T.GAP, Being("#EXT-X-GAP"))
  {
    forall b | 0 <= b < |lines| ensures T.GAP(Classify(lines[b])) <==> Being("#EXT-X-GAP")(lines[b]) { BareTagsAre(lines[b]); }
  }

  /** No accepted text ends with an EXTINF or EXT-X-GAP line whose URI is missing. */
  lemma {:induction false} NothingLeftOver(env: Env, text: string, lines: seq<string>, p: Playlist)
    requires Accepted(env, text, lines, p)
    ensures !SomeSince(lines, Starting("#EXTINF:"), |lines|) && !SomeSince(lines, Being("#EXT-X-GAP"), |lines|)
  {
    AcceptedScans(env, text, lines, p);
    T.DurationAt(env, TagsOf(lines), |lines|);
    T.GapAt(env, TagsOf(lines), |lines|);
    InfsAre(lines);
    GapsAre(lines);
    AnyIs(lines, T.INF, Starting("#EXTINF:"), |lines|);
    AnyIs(lines, T.GAP, Being("#EXT-X-GAP"), |lines|);
  }

  /** Variables, I-frame playlists, delta updates and session keys are refused. */
  predicate Unsupported(line: string) {
    || "#EXT-X-DEFINE:" <= line || "#EXT-X-I-FRAME-STREAM-INF:" <= line || line == "#EXT-X-I-FRAMES-ONLY"
    || "#EXT-X-SKIP:" <= line || "#EXT-X-SESSION-KEY:" <= line
  }

  lemma {:induction false} UnsupportedRest(line: string)
    requires "#EXT-X-SKIP:" <= line || "#EXT-X-SESSION-KEY:" <= line || line == "#EXT-X-I-FRAMES-ONLY"
    ensures ClassifyRest(line) == Rejected
  {
    Differs("#EXT-X-PART:", line, 7);
    Differs("#EXT-X-PART-INF:", line, 7);
    Differs("#EXT-X-PRELOAD-HINT:", line, 7);
    Differs("#EXT-X-SERVER-CONTROL:", line, if line[7] == 'S' then (if line[8] == 'K' then 8 else 9) else 7);
    Differs("#EXT-X-RENDITION-REPORT:", line, 7);
    Differs("#EXT-X-KEY:", line, 7);
    assert "#EXT-X-DISCONTINUITY"[7] == 'D' && "#EXT-X-GAP"[7] == 'G' && "#EXT-X-ENDLIST"[7] == 'E';
  }

  lemma {:induction false} UnsupportedTag(line: string)
    requires "#EXT-X-SKIP:" <= line || "#EXT-X-SESSION-KEY:" <= line
    ensures Classify(line) == Rejected
  {
    UnsupportedRest(line);
    Differs("#EXT-X-MEDIA-SEQUENCE:", line, 7);
    Differs("#EXT-X-DISCONTINUITY-SEQUENCE:", line, 7);
    Differs("#EXT-X-TARGETDURATION:", line, 7);
    Differs("#EXTINF:", line, 4);
    Differs("#EXT-X-PROGRAM-DATE-TIME:", line, 7);
    Differs("#EXT-X-MAP:", line, 7);
    Differs("#EXT-X-BYTERANGE:", line, 7);
  }

  lemma {:induction false} FramesOnlyTag(line: string)
    requires line == "#EXT-X-I-FRAMES-ONLY"
    ensures Classify(line) == Rejected
  {
    UnsupportedRest(line);
    Differs("#EXT-X-MEDIA-SEQUENCE:", line, 7);
    Differs("#EXT-X-DISCONTINUITY-SEQUENCE:", line, 7);
    Differs("#EXT-X-TARGETDURATION:", line, 7);
    Differs("#EXTINF:", line, 4);
    Differs("#EXT-X-PROGRAM-DATE-TIME:", line, 7);
    Differs("#EXT-X-MAP:", line, 7);
    Differs("#EXT-X-BYTERANGE:", line, 7);
  }

  lemma {:induction false} UnsupportedIsRefused(env: Env, text: string, lines: seq<string>, p: Playlist, a: nat)
    requires Accepted(env, text, lines, p) && a < |lines|
    ensures !Unsupported(lines[a])
  {
    AcceptedScans(env, text, lines, p);
    T.StateSteps(env, TagsOf(lines), a);
    if "#EXT-X-SKIP:" <= lines[a] || "#EXT-X-SESSION-KEY:" <= lines[a] { UnsupportedTag(lines[a]); }
    if lines[a] == "#EXT-X-I-FRAMES-ONLY" { FramesOnlyTag(lines[a]); }
  }

  const KEY := "#EXT-X-KEY:"

  lemma {:induction false} KeyRest(line: string)
    requires KEY <= line
    ensures ClassifyRest(line) == KeyTag(line[11..])
  {
    assert line[7] == 'K';
    Differs("#EXT-X-PART:", line, 7);
    Differs("#EXT-X-PART-INF:", line, 7);
    Differs("#EXT-X-PRELOAD-HINT:", line, 7);
    Differs("#EXT-X-SERVER-CONTROL:", line, 7);
    Differs("#EXT-X-RENDITION-REPORT:", line, 7);
    Differs("#EXT-X-SKIP:", line, 7);
    assert "#EXT-X-DISCONTINUITY"[7] == 'D' && "#EXT-X-GAP"[7] == 'G' && "#EXT-X-ENDLIST"[7] == 'E';
  }

  lemma {:induction false} KeyTagIs(line: string)
    requires KEY <= line
    ensures Classify(line) == KeyTag(line[11..])
  {
    assert line[7] == 'K';
    Differs("#EXT-X-DEFINE:", line, 7);
    Differs("#EXT-X-I-FRAME-STREAM-INF:", line, 7);
    Differs("#EXT-X-MEDIA-SEQUENCE:", line, 7);
    Differs("#EXT-X-DISCONTINUITY-SEQUENCE:", line, 7);
    Differs("#EXT-X-TARGETDURATION:", line, 7);
    Differs("#EXTINF:", line, 4);
    Differs("#EXT-X-PROGRAM-DATE-TIME:", line, 7);
    Differs("#EXT-X-MAP:", line, 7);
    Differs("#EXT-X-BYTERANGE:", line, 7);
    KeyRest(line);
  }

  /** NONE, in any mixture of cases. */
  predicate IsNone(name: string) {
    && |name| == 4 && (name[0] == 'N' || name[0] == 'n') && (name[1] == 'O' || name[1] == 'o')
    && (name[2] == 'N' || name[2] == 'n') && (name[3] == 'E' || name[3] == 'e')
  }

  lemma {:induction false} UpperIsNone(m: string)
    ensures Upper(m) == "NONE" <==> IsNone(m)
  {
    if |m| == 4 {
      assert Upper(m) == "NONE" <==> Upper(m)[0] == 'N' && Upper(m)[1] == 'O' && Upper(m)[2] == 'N' && Upper(m)[3] == 'E';
    }
  }

  lemma {:induction false} KeyStep(env: Env, s: Scan, text: string, m: string)
    requires AttrsOf(text).Some? && "METHOD" in AttrsOf(text).value && AttrsOf(text).value["METHOD"] == m
    ensures Apply(env, s, KeyTag(text)) == if IsNone(m) then Ok(s) else Err(Problem.Unsupported)
  {
    UpperIsNone(m);
  }

  /** A key line whose attribute list gives a method: it is passed over if the method is NONE,
      and the text is refused if it is another. */
  lemma {:induction false} KeyLine(env: Env, s: Scan, line: string, attrs: seq<Attr>, j: nat, m: string)
    requires KEY <= line && line[|KEY|..] == ShowAttrs(attrs) && (forall x | x in attrs :: Printable(x)) && Untaken(Entries(attrs), {})
    requires Gives(attrs, j, "METHOD", m)
    ensures Apply(env, s, Classify(line)) == if IsNone(m) then Ok(s) else Err(Problem.Unsupported)
  {
    KeyTagIs(line);
    ReadsAttrs(attrs);
    assert AttrsOf(ShowAttrs(attrs)).value[attrs[j].key] == attrs[j].value;
    KeyStep(env, s, ShowAttrs(attrs), m);
  }

  /** No accepted text is encrypted. */
  lemma {:induction false} EncryptionIsRefused(env: Env, text: string, lines: seq<string>, p: Playlist, a: nat, attrs: seq<Attr>, j: nat, m: string)
    requires Accepted(env, text, lines, p) && a < |lines| && KEY <= lines[a] && lines[a][|KEY|..] == ShowAttrs(attrs)
    requires (forall x | x in attrs :: Printable(x)) && Untaken(Entries(attrs), {}) && Gives(attrs, j, "METHOD", m)
    ensures IsNone(m)
  {
    AcceptedScans(env, text, lines, p);
    T.StateSteps(env, TagsOf(lines), a);
    KeyLine(env, T.StateAt(env, TagsOf(lines), a), lines[a], attrs, j, m);
  }

  /** Parts, preload hints, server control and rendition reports belong to a low-latency playlist. */
  predicate LowLatency(line: string) {
    || "#EXT-X-PART:" <= line || "#EXT-X-PART-INF:" <= line || "#EXT-X-PRELOAD-HINT:" <= line
    || "#EXT-X-SERVER-CONTROL:" <= line || "#EXT-X-RENDITION-REPORT:" <= line
  }

  lemma {:induction false} LowLatencyRest(line: string)
    requires LowLatency(line)
    ensures ClassifyRest(line) == LowLatencyTag
  {
    assert line[7] == 'P' || line[7] == 'S' || line[7] == 'R';
    assert "#EXT-X-DISCONTINUITY"[7] == 'D' && "#EXT-X-GAP"[7] == 'G' && "#EXT-X-ENDLIST"[7] == 'E';
  }

  lemma {:induction false} LowLatencyTagIs(line: string)
    requires LowLatency(line)
    ensures Classify(line) == LowLatencyTag
  {
    LowLatencyRest(line);
    LowLatencyName(line, line[7], line[8]);
    Differs("#EXT-X-DEFINE:", line, 7);
    Differs("#EXT-X-I-FRAME-STREAM-INF:", line, 7);
    Differs("#EXT-X-MEDIA-SEQUENCE:", line, 7);
    Differs("#EXT-X-DISCONTINUITY-SEQUENCE:", line, 7);
    Differs("#EXT-X-TARGETDURATION:", line, 7);
    Differs("#EXTINF:", line, 4);
    Differs("#EXT-X-MAP:", line, 7);
    Differs("#EXT-X-BYTERANGE:", line, 7);
  }

  /** The letters that tell these tags from the others. */
  lemma {:induction false} LowLatencyName(line: string, x: char, y: char)
    requires LowLatency(line) && x == line[7] && y == line[8]
    ensures line[4] == '-' && (x == 'P' || x == 'S' || x == 'R') && !("#EXT-X-PROGRAM-DATE-TIME:" <= line)
  {
    if x == 'P' { Differs("#EXT-X-PROGRAM-DATE-TIME:", line, if y == 'A' then 8 else 9); } else { Differs("#EXT-X-PROGRAM-DATE-TIME:", line, 7); }
  }

  /** An accepted low-latency playlist has a complete segment. */
  lemma {:induction false} LowLatencyHasSegment(env: Env, text: string, lines: seq<string>, p: Playlist, a: nat)
    requires Accepted(env, text, lines, p) && a < |lines| && LowLatency(lines[a])
    ensures p.segments != []
  {
    AcceptedScans(env, text, lines, p);
    LowLatencyTagIs(lines[a]);
    T.LowLatencyAt(env, TagsOf(lines), a, |lines|);
    T.StateSteps(env, TagsOf(lines), a);
  }

  /** An accepted text starts with the header and has no more than four mebibytes. */
  lemma {:induction false} HeaderAndSize(env: Env, text: string, lines: seq<string>, p: Playlist)
    requires Accepted(env, text, lines, p)
    ensures lines != [] && lines[0] == "#EXTM3U" && Utf8Size(text) <= 4 * 1024 * 1024
  {
  }
}
