/** Text of HLS playlists: lines, decimal numbers and attribute lists (internal/hls). */
module PlaylistText {
  import opened AttributeList

  // Lines ----------------------------------------------------------------------------------

  /** unicode.IsSpace */
  predicate IsSpace(c: char) {
    || c == ' ' || '\t' <= c <= '\r' || c == '\U{85}' || c == '\U{A0}' || c == '\U{1680}' || '\U{2000}' <= c <= '\U{200A}'
    || c == '\U{2028}' || c == '\U{2029}' || c == '\U{202F}' || c == '\U{205F}' || c == '\U{3000}'
  }

  /** The first position from i to n that is no space; n when there is none. */
  function FirstText(s: string, i: nat, n: nat): (k: nat)
    requires i <= n <= |s|
    ensures i <= k <= n
    decreases n - i
  {
    if i < n && IsSpace(s[i]) then FirstText(s, i + 1, n) else i
  }

  /** The position behind the last text between i and n; i when there is none. */
  function LastText(s: string, i: nat, n: nat): (k: nat)
    requires i <= n <= |s|
    ensures i <= k <= n
  {
    if i < n && IsSpace(s[n - 1]) then LastText(s, i, n - 1) else n
  }

  function TrimRight(s: string): string { s[..LastText(s, 0, |s|)] }

  /** strings.TrimSpace of a part of a text. */
  function TrimPart(s: string, i: nat, n: nat): string
    requires i <= n <= |s|
  {
    s[FirstText(s, i, n)..LastText(s, FirstText(s, i, n), n)]
  }

  function Trim(s: string): string { TrimPart(s, 0, |s|) }

  predicate Trimmed(s: string) { s != "" && !IsSpace(s[0]) && !IsSpace(s[|s| - 1]) }

  lemma {:induction false} FirstTextIs(s: string, i: nat, n: nat)
    requires i <= n <= |s|
    ensures var k := FirstText(s, i, n); (forall j | i <= j < k :: IsSpace(s[j])) && (k < n ==> !IsSpace(s[k]))
    decreases n - i
  {
    if i < n && IsSpace(s[i]) { FirstTextIs(s, i + 1, n); }
  }

  lemma {:induction false} LastTextIs(s: string, i: nat, n: nat)
    requires i <= n <= |s|
    ensures var k := LastText(s, i, n); (forall j | k <= j < n :: IsSpace(s[j])) && (k > i ==> !IsSpace(s[k - 1]))
  {
    if i < n && IsSpace(s[n - 1]) { LastTextIs(s, i, n - 1); }
  }

  /** Trimming cuts off space on both sides, all of it and nothing else. */
  lemma {:induction false} TrimMeans(s: string) returns (k: nat, l: nat)
    ensures k <= l <= |s| && Trim(s) == s[k..l] && (Trim(s) == "" || Trimmed(Trim(s)))
    ensures (forall j | 0 <= j < k :: IsSpace(s[j])) && forall j | l <= j < |s| :: IsSpace(s[j])
  {
    k := FirstText(s, 0, |s|);
    l := LastText(s, k, |s|);
    FirstTextIs(s, 0, |s|);
    LastTextIs(s, k, |s|);
  }

  /** The first position of a stop character at or after i; |s| when there is none. */
  function Find(s: string, i: nat, stop: set<char>): (k: nat)
    requires i <= |s|
    ensures i <= k <= |s| && (k < |s| ==> s[k] in stop)
    decreases |s| - i
  {
    if i == |s| || s[i] in stop then i else Find(s, i + 1, stop)
  }

  lemma {:induction false} FindSkips(s: string, i: nat, stop: set<char>)
    requires i <= |s|
    ensures forall j | i <= j < Find(s, i, stop) :: s[j] !in stop
    decreases |s| - i
  {
    if i < |s| && s[i] !in stop { FindSkips(s, i + 1, stop); }
  }

  lemma {:induction false} FindAt(s: string, i: nat, stop: set<char>, k: nat)
    requires i <= k <= |s| && (k < |s| ==> s[k] in stop) && forall j | i <= j < k :: s[j] !in stop
    ensures Find(s, i, stop) == k
    decreases k - i
  {
    if i < k { FindAt(s, i + 1, stop, k); }
  }

  /** bufio.ScanLines, before cleaning: a final line break starts no further line. */
  function Split(text: string): seq<string>
    decreases |text|
  {
    if text == "" then []
    else
      var k := Find(text, 0, {'\n'});
      [text[..k]] + if k == |text| then [] else Split(text[k + 1..])
  }

  function Joined(lines: seq<string>): string {
    if lines == [] then "" else Joined(lines[..|lines| - 1]) + lines[|lines| - 1] + "\n"
  }

  lemma {:induction false} JoinedFront(lines: seq<string>)
    requires lines != []
    ensures Joined(lines) == lines[0] + "\n" + Joined(lines[1..])
  {
    if |lines| > 1 {
      var init := lines[..|lines| - 1];
      JoinedFront(init);
      assert init[1..] == lines[1..][..|lines| - 2];
      assert Joined(lines[1..]) == Joined(init[1..]) + lines[|lines| - 1] + "\n";
    } else {
      assert lines[..0] == [] && lines[1..] == [];
    }
  }

  /** Written lines are read back as they were. */
  lemma {:induction false} SplitJoined(lines: seq<string>)
    requires forall i | 0 <= i < |lines| :: '\n' !in lines[i]
    ensures Split(Joined(lines)) == lines
  {
    if lines != [] {
      JoinedFront(lines);
      var text, rest := Joined(lines), lines[1..];
      var k := |lines[0]|;
      assert text[..k] == lines[0] && text[k] == '\n' && text[k + 1..] == Joined(rest);
      assert forall j | 0 <= j < k :: text[j] == lines[0][j];
      FindAt(text, 0, {'\n'}, k);
      SplitJoined(rest);
    }
  }

  // Decimal numbers --------------------------------------------------------------------------

  predicate IsDigit(c: char) { '0' <= c <= '9' }

  predicate AllDigits(s: string) { forall i | 0 <= i < |s| :: IsDigit(s[i]) }

  function NatOf(s: string): nat
    requires AllDigits(s)
  {
    if s == "" then 0 else 10 * NatOf(s[..|s| - 1]) + (s[|s| - 1] as int - '0' as int)
  }

  /** The decimal text of n, padded with zeros to at least `width` digits. */
  function Digits(n: nat, width: nat): (s: string)
    ensures |s| >= width && s != "" && AllDigits(s) && NatOf(s) == n
  {
    var last := ['0' + (n % 10) as char];
    if n < 10 && width <= 1 then last
    else
      var front := Digits(n / 10, if width == 0 then 0 else width - 1);
      var s := front + last;
      assert s[..|s| - 1] == front;
      s
  }

  /** strconv.ParseUint in base 10 */
  function ParseUint(s: string, max: nat): Option<nat> {
    if s != "" && AllDigits(s) && NatOf(s) <= max then Some(NatOf(s)) else None
  }

  /** The decimal number n / 10^scale. */
  datatype Decimal = Decimal(n: nat, scale: nat)

  function Pow10(k: nat): (p: nat)
    ensures p > 0
  {
    if k == 0 then 1 else 10 * Pow10(k - 1)
  }

  function Value(d: Decimal): real { d.n as real / Pow10(d.scale) as real }

  /** A number in plain decimal notation. */
  function Show(d: Decimal): string {
    if d.scale == 0 then Digits(d.n, 1)
    else
      var s := Digits(d.n, d.scale + 1);
      s[..|s| - d.scale] + "." + s[|s| - d.scale..]
  }

  /** The decimal that a text stands for: digits, or digits "." digits. */
  function DecimalOf(s: string): Option<Decimal> {
    var dot := Find(s, 0, {'.'});
    if dot == |s| then
      if s != "" && AllDigits(s) then Some(Decimal(NatOf(s), 0)) else None
    else
      var front, back := s[..dot], s[dot + 1..];
      if front != "" && back != "" && AllDigits(front + back) then Some(Decimal(NatOf(front + back), |back|)) else None
  }

  lemma DotRoundTrip(front: string, back: string)
    requires front != "" && back != "" && AllDigits(front + back)
    ensures DecimalOf(front + "." + back) == Some(Decimal(NatOf(front + back), |back|))
  {
    var t := front + "." + back;
    assert t[..|front|] == front && t[|front|] == '.' && t[|front| + 1..] == back;
    assert forall j | 0 <= j < |front| :: t[j] == (front + back)[j];
    FindAt(t, 0, {'.'}, |front|);
  }

  lemma ShowRoundTrip(d: Decimal)
    ensures DecimalOf(Show(d)) == Some(d)
  {
    if d.scale == 0 {
      FindAt(Show(d), 0, {'.'}, |Show(d)|);
    } else {
      var s := Digits(d.n, d.scale + 1);
      var dot := |s| - d.scale;
      assert s[..dot] + s[dot..] == s;
      DotRoundTrip(s[..dot], s[dot..]);
    }
  }

  lemma NoBreaks(d: Decimal)
    ensures forall i | 0 <= i < |Show(d)| :: Show(d)[i] == '.' || IsDigit(Show(d)[i])
    ensures Show(d) != ""
  {
  }

  /** parseDecimalFloat, up to the conversion of an accepted text. */
  method ParseDecimal(value: string) returns (accepted: bool)
    ensures accepted == DecimalOf(value).Some?
  {
    if value == "" { return false; }
    var seenDot := false;
    var before, after := 0, 0;
    for i := 0 to |value|
      invariant 0 <= before <= i && 0 <= after && before + after + (if seenDot then 1 else 0) == i
      invariant if seenDot then before < i && value[before] == '.' else before == i
      invariant forall j | 0 <= j < i && j != before :: IsDigit(value[j])
    {
      if IsDigit(value[i]) {
        if seenDot { after := after + 1; } else { before := before + 1; }
      } else if value[i] == '.' && !seenDot {
        seenDot := true;
      } else {
        Refused(value, before, i);
        return false;
      }
    }
    FindAt(value, 0, {'.'}, before);
    if seenDot {
      var front, back := value[..before], value[before + 1..];
      assert AllDigits(front + back);
    }
    return before > 0 && (!seenDot || after > 0);
  }

  lemma Refused(value: string, before: nat, i: nat)
    requires before <= i < |value| && !IsDigit(value[i]) && (before == i ==> value[i] != '.') && (before < i ==> value[before] == '.')
    requires forall j | 0 <= j < before :: IsDigit(value[j])
    ensures DecimalOf(value) == None
  {
    var dot := Find(value, 0, {'.'});
    if before < i {
      FindAt(value, 0, {'.'}, before);
      var all := value[..before] + value[before + 1..];
      assert all[i - 1] == value[i];
    } else if dot < |value| {
      assert dot > i;
      assert (value[..dot] + value[dot + 1..])[i] == value[i];
    }
  }

  // Attribute lists ------------------------------------------------------------------------

  /** The value that starts at `from`, quoted or bare. */
  function ValueAt(raw: string, key: string, from: nat): (item: Item<string, string>)
    requires from <= |raw|
    ensures item.Item? ==> from <= item.next <= |raw|
  {
    if from < |raw| && raw[from] == '"' then
      var close := Find(raw, from + 1, {'"'});
      if close == |raw| then Malformed else Item(key, raw[from + 1..close], close + 1)
    else
      var end := Find(raw, from, {','});
      Item(key, TrimPart(raw, from, end), end)
  }

  /** The attribute that starts at i. */
  function ItemAt(raw: string, i: nat): (item: Item<string, string>)
    requires i < |raw|
    ensures item.Item? ==> i < item.next <= |raw|
  {
    var eq := Find(raw, i, {'=', ','});
    if eq == |raw| || raw[eq] != '=' then Malformed
    else
      var key := TrimPart(raw, i, eq);
      if key == "" then Malformed else ValueAt(raw, key, eq + 1)
  }

  /** A reader of single attributes of `raw`. */
  ghost predicate ReadsItems(read: nat -> Item<string, string>, raw: string) {
    forall k: nat {:trigger ItemAt(raw, k)} | k < |raw| :: read(k) == ItemAt(raw, k)
  }

  function Reader(raw: string): (read: nat -> Item<string, string>)
    ensures Forward(read, |raw|) && ReadsItems(read, raw)
  {
    (k: nat) => if k < |raw| then ItemAt(raw, k) else Malformed
  }

  function Commas(raw: string): nat -> bool { (k: nat) => k < |raw| && raw[k] == ',' }

  /** The attributes from position i on, added to those already read. */
  function AttrsFrom(raw: string, i: nat, attrs: map<string, string>): Option<map<string, string>>
    requires i <= |raw|
  {
    ReadFrom(Reader(raw), Commas(raw), |raw|, i, attrs)
  }

  function AttrsOf(raw: string): Option<map<string, string>> { if raw == "" then None else AttrsFrom(raw, 0, map[]) }

  /** The quoted value after an opening quote at i - 1, and the position after its closing quote. */
  method ReadQuoted(raw: string, i: nat) returns (value: string, next: nat, closed: bool)
    requires i <= |raw|
    ensures closed == (Find(raw, i, {'"'}) < |raw|)
    ensures closed ==> next == Find(raw, i, {'"'}) + 1 && value == raw[i..next - 1]
  {
    value, next, closed := "", i, false;
    while next < |raw|
      invariant i <= next <= |raw| && Find(raw, i, {'"'}) == Find(raw, next, {'"'}) && value == raw[i..next]
    {
      if raw[next] == '"' { return value, next + 1, true; }
      value := value + [raw[next]];
      next := next + 1;
    }
  }

  /** The first stop character from i on. */
  method Skip(raw: string, i: nat, stop: set<char>) returns (k: nat)
    requires i <= |raw|
    ensures k == Find(raw, i, stop)
  {
    k := i;
    while k < |raw| && raw[k] !in stop
      invariant i <= k <= |raw| && Find(raw, i, stop) == Find(raw, k, stop)
    {
      k := k + 1;
    }
  }

  /** One turn of the loop of parseAttrs, up to the separator. */
  method ReadItem(raw: string, start: nat, ghost read: nat -> Item<string, string>) returns (item: Item<string, string>)
    requires start < |raw| && ReadsItems(read, raw)
    ensures item == read(start)
  {
    assert read(start) == ItemAt(raw, start);
    var i := Skip(raw, start, {'=', ','});
    if i >= |raw| || raw[i] != '=' { return Malformed; }
    var key := TrimPart(raw, start, i);
    if key == "" { return Malformed; }
    i := i + 1;
    if i < |raw| && raw[i] == '"' {
      var value, next, closed := ReadQuoted(raw, i + 1);
      return if closed then Item(key, value, next) else Malformed;
    }
    var end := Skip(raw, i, {','});
    return Item(key, TrimPart(raw, i, end), end);
  }

  /** The checks of one turn of the loop of parseAttrs. */
  method TakeItem(raw: string, item: Item<string, string>, attrs: map<string, string>) returns (turn: Turn<string, string>)
    requires item.Item? ==> item.next <= |raw|
    ensures turn == TurnOf(item, Commas(raw), |raw|, attrs)
  {
    if item.Malformed? || item.key in attrs { return Ends(None); }
    if item.next == |raw| { return Ends(Some(attrs[item.key := item.value])); }
    if raw[item.next] != ',' || item.next + 1 == |raw| { return Ends(None); }
    return Goes(attrs[item.key := item.value]);
  }

  /** The loop of parseAttrs, with the reader that its turns amount to. */
  method ReadAll(raw: string, ghost read: nat -> Item<string, string>) returns (r: Option<map<string, string>>)
    requires Forward(read, |raw|) && ReadsItems(read, raw)
    ensures r == ReadFrom(read, Commas(raw), |raw|, 0, map[])
  {
    var attrs: map<string, string> := map[];
    var i := 0;
    while i < |raw|
      invariant i <= |raw| && ReadFrom(read, Commas(raw), |raw|, 0, map[]) == ReadFrom(read, Commas(raw), |raw|, i, attrs)
    {
      var item := ReadItem(raw, i, read);
      OneTurn(read, Commas(raw), |raw|, i, attrs, item);
      var turn := TakeItem(raw, item, attrs);
      if turn.Ends? { return turn.result; }
      attrs, i := turn.attrs, item.next + 1;
    }
    return Some(attrs);
  }

  /** parseAttrs */
  method ParseAttrs(raw: string) returns (r: Option<map<string, string>>)
    ensures r == AttrsOf(raw)
  {
    if raw == "" { return None; }
    r := ReadAll(raw, Reader(raw));
  }

  /** An attribute to print. */
  datatype Attr = Attr(key: string, value: string, quoted: bool)

  predicate Printable(a: Attr) {
    && Trimmed(a.key) && '=' !in a.key && ',' !in a.key
    && if a.quoted then '"' !in a.value
       else ',' !in a.value && (a.value == "" || (Trimmed(a.value) && a.value[0] != '"'))
  }

  function ShowValue(a: Attr): string { if a.quoted then "\"" + a.value + "\"" else a.value }

  function ShowAttr(a: Attr): string { a.key + "=" + ShowValue(a) }

  function ShowAttrs(attrs: seq<Attr>): string
    decreases |attrs|, 0
  {
    if attrs == [] then "" else ShowAttr(attrs[0]) + ShowRest(attrs[1..])
  }

  function ShowRest(attrs: seq<Attr>): string
    decreases |attrs|, 1
  {
    if attrs == [] then "" else "," + ShowAttrs(attrs)
  }

  function Entries(attrs: seq<Attr>): (r: seq<Entry<string, string>>)
    ensures |r| == |attrs|
  {
    if attrs == [] then [] else [Entry(attrs[0].key, attrs[0].value)] + Entries(attrs[1..])
  }

  lemma TrimmedStays(s: string)
    requires s == "" || Trimmed(s)
    ensures Trim(s) == s
  {
    assert s[0..|s|] == s;
  }

  /** A trimmed text within another one. */
  lemma TrimmedPart(raw: string, i: nat, text: string)
    requires At(raw, i, text) && (text == "" || Trimmed(text))
    ensures TrimPart(raw, i, i + |text|) == text
  {
    if text != "" {
      assert raw[i + 0] == text[0] && raw[i + (|text| - 1)] == text[|text| - 1];
    }
    AtSlice(raw, i, text);
  }

  predicate At(raw: string, i: nat, text: string) { i + |text| <= |raw| && forall j | 0 <= j < |text| :: raw[i + j] == text[j] }

  lemma AtSlice(raw: string, i: nat, text: string)
    requires At(raw, i, text)
    ensures raw[i..i + |text|] == text
  {
  }

  lemma AtIndex(raw: string, i: nat, text: string)
    requires At(raw, i, text)
    ensures forall j | i <= j < i + |text| :: raw[j] == text[j - i]
  {
    forall j | i <= j < i + |text| ensures raw[j] == text[j - i] {
      assert raw[i + (j - i)] == text[j - i];
    }
  }

  lemma AtParts(raw: string, i: nat, front: string, back: string)
    requires At(raw, i, front + back)
    ensures At(raw, i, front) && At(raw, i + |front|, back)
  {
    assert forall j | 0 <= j < |front| :: (front + back)[j] == front[j];
    forall j | 0 <= j < |back| ensures raw[i + |front| + j] == back[j] {
      assert (front + back)[|front| + j] == back[j];
      assert raw[i + (|front| + j)] == back[j];
    }
  }

  /** A text without stop characters, up to a stop character or the end. */
  lemma FindBehind(raw: string, i: nat, text: string, stop: set<char>)
    requires At(raw, i, text) && (forall j | 0 <= j < |text| :: text[j] !in stop) && (i + |text| < |raw| ==> raw[i + |text|] in stop)
    ensures Find(raw, i, stop) == i + |text|
  {
    AtIndex(raw, i, text);
    FindAt(raw, i, stop, i + |text|);
  }

  lemma QuotedParts(raw: string, i: nat, value: string)
    requires At(raw, i, "\"" + value + "\"")
    ensures At(raw, i, "\"") && At(raw, i + 1, value) && At(raw, i + 1 + |value|, "\"")
  {
    assert "\"" + value + "\"" == "\"" + (value + "\"");
    AtParts(raw, i, "\"", value + "\"");
    AtParts(raw, i + 1, value, "\"");
  }

  lemma QuotedRoundTrip(raw: string, i: nat, key: string, value: string)
    requires At(raw, i, "\"" + value + "\"") && '"' !in value
    ensures ValueAt(raw, key, i) == Item(key, value, i + |value| + 2)
  {
    QuotedParts(raw, i, value);
    AtIndex(raw, i, "\"");
    AtIndex(raw, i + 1 + |value|, "\"");
    FindBehind(raw, i + 1, value, {'"'});
    AtSlice(raw, i + 1, value);
  }

  lemma BareRoundTrip(raw: string, i: nat, key: string, value: string)
    requires At(raw, i, value) && ',' !in value && (i + |value| < |raw| ==> raw[i + |value|] == ',')
    requires value == "" || (Trimmed(value) && value[0] != '"')
    ensures ValueAt(raw, key, i) == Item(key, value, i + |value|)
  {
    FindBehind(raw, i, value, {','});
    TrimmedPart(raw, i, value);
    AtIndex(raw, i, value);
  }

  /** A reader of the values of one attribute of `raw`. */
  ghost predicate ReadsValues(values: nat -> Item<string, string>, raw: string, key: string) {
    forall k: nat {:trigger ValueAt(raw, key, k)} | k <= |raw| :: values(k) == ValueAt(raw, key, k)
  }

  function Values(raw: string, key: string): (values: nat -> Item<string, string>)
    ensures ReadsValues(values, raw, key)
  {
    (k: nat) => if k <= |raw| then ValueAt(raw, key, k) else Malformed
  }

  lemma ValueRoundTrip(values: nat -> Item<string, string>, raw: string, from: nat, a: Attr)
    requires ReadsValues(values, raw, a.key) && Printable(a) && At(raw, from, ShowValue(a))
    requires var end := from + |ShowValue(a)|; end < |raw| ==> raw[end] == ','
    ensures values(from) == Item(a.key, a.value, from + |ShowValue(a)|)
  {
    if a.quoted {
      QuotedRoundTrip(raw, from, a.key, a.value);
    } else {
      BareRoundTrip(raw, from, a.key, a.value);
    }
  }

  lemma KeyIsRead(raw: string, i: nat, key: string)
    requires At(raw, i, key) && At(raw, i + |key|, "=") && Trimmed(key) && '=' !in key && ',' !in key
    ensures i < |raw| && ItemAt(raw, i) == ValueAt(raw, key, i + |key| + 1)
  {
    AtIndex(raw, i + |key|, "=");
    FindBehind(raw, i, key, {'=', ','});
    TrimmedPart(raw, i, key);
  }

  lemma KeyRoundTrip(read: nat -> Item<string, string>, values: nat -> Item<string, string>, raw: string, i: nat, key: string)
    requires ReadsItems(read, raw) && ReadsValues(values, raw, key)
    requires At(raw, i, key) && At(raw, i + |key|, "=") && Trimmed(key) && '=' !in key && ',' !in key
    ensures i < |raw| && read(i) == values(i + |key| + 1)
  {
    KeyIsRead(raw, i, key);
  }

  lemma AttrParts(raw: string, i: nat, a: Attr)
    requires At(raw, i, ShowAttr(a))
    ensures At(raw, i, a.key) && At(raw, i + |a.key|, "=") && At(raw, i + |a.key| + 1, ShowValue(a))
    ensures |ShowAttr(a)| == |a.key| + 1 + |ShowValue(a)|
  {
    AtParts(raw, i, a.key + "=", ShowValue(a));
    AtParts(raw, i, a.key, "=");
  }

  /** A printed attribute is read back, whatever follows its separator. */
  lemma ItemRoundTrip(read: nat -> Item<string, string>, values: nat -> Item<string, string>, raw: string, i: nat, a: Attr)
    requires ReadsItems(read, raw) && ReadsValues(values, raw, a.key) && Printable(a) && At(raw, i, ShowAttr(a))
    requires var end := i + |ShowAttr(a)|; end < |raw| ==> raw[end] == ','
    ensures i < |raw| && read(i) == Item(a.key, a.value, i + |ShowAttr(a)|)
  {
    AttrParts(raw, i, a);
    KeyRoundTrip(read, values, raw, i, a.key);
    ValueRoundTrip(values, raw, i + |a.key| + 1, a);
  }

  lemma RestAfter(raw: string, end: nat, rest: seq<Attr>)
    requires rest != [] && At(raw, end, ShowRest(rest)) && |raw| == end + |ShowRest(rest)|
    ensures end + 1 < |raw| && raw[end] == ',' && At(raw, end + 1, ShowAttrs(rest)) && |raw| == end + 1 + |ShowAttrs(rest)|
  {
    AtParts(raw, end, ",", ShowAttrs(rest));
    AtIndex(raw, end, ",");
    ShowsSomething(rest);
  }

  lemma FirstOut(raw: string, i: nat, first: string, rest: seq<Attr>)
    requires At(raw, i, first + ShowRest(rest)) && |raw| == i + |first + ShowRest(rest)|
    ensures At(raw, i, first) && (rest == [] ==> i + |first| == |raw|)
    ensures rest != [] ==>
      (var end := i + |first|;
        end + 1 < |raw| && raw[end] == ',' && At(raw, end + 1, ShowAttrs(rest)) && |raw| == end + 1 + |ShowAttrs(rest)|)
  {
    AtParts(raw, i, first, ShowRest(rest));
    if rest != [] { RestAfter(raw, i + |first|, rest); }
  }

  /** The first of several printed attributes, and where the others are. */
  lemma PartsOut(raw: string, i: nat, attrs: seq<Attr>)
    requires At(raw, i, ShowAttrs(attrs)) && |raw| == i + |ShowAttrs(attrs)| && attrs != []
    ensures var end := i + |ShowAttr(attrs[0])|;
      && At(raw, i, ShowAttr(attrs[0])) && (|attrs| == 1 ==> end == |raw|)
      && (|attrs| > 1 ==> end + 1 < |raw| && raw[end] == ',' && At(raw, end + 1, ShowAttrs(attrs[1..])) && |raw| == end + 1 + |ShowAttrs(attrs[1..])|)
  {
    FirstOut(raw, i, ShowAttr(attrs[0]), attrs[1..]);
  }

  lemma {:induction false} LaidOut(read: nat -> Item<string, string>, raw: string, i: nat, attrs: seq<Attr>)
    requires At(raw, i, ShowAttrs(attrs)) && |raw| == i + |ShowAttrs(attrs)| && attrs != []
    requires ReadsItems(read, raw) && forall a | a in attrs :: Printable(a)
    ensures Laid(read, Commas(raw), |raw|, i, Entries(attrs))
    decreases |attrs|
  {
    PartsOut(raw, i, attrs);
    ItemRoundTrip(read, Values(raw, attrs[0].key), raw, i, attrs[0]);
    if |attrs| > 1 {
      LaidOut(read, raw, i + |ShowAttr(attrs[0])| + 1, attrs[1..]);
      assert Entries(attrs)[1..] == Entries(attrs[1..]);
    }
  }

  /** Attribute lists are read back: distinct keys, quoted and bare values. */
  lemma AttrsRoundTrip(raw: string, i: nat, attrs: seq<Attr>, m: map<string, string>)
    requires At(raw, i, ShowAttrs(attrs)) && |raw| == i + |ShowAttrs(attrs)| && attrs != []
    requires (forall a | a in attrs :: Printable(a)) && Untaken(Entries(attrs), m.Keys)
    ensures AttrsFrom(raw, i, m) == Some(AddAll(m, Entries(attrs)))
  {
    LaidOut(Reader(raw), raw, i, attrs);
    ReadsBack(Reader(raw), Commas(raw), |raw|, i, Entries(attrs), m);
  }

  lemma ShowsSomething(attrs: seq<Attr>)
    requires attrs != []
    ensures |ShowAttrs(attrs)| > 0
  {
    assert |ShowAttr(attrs[0])| > 0;
  }
}
