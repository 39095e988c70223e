/** Canonical JSON text (canonicalJSONValue): two decoded values have the same
    text exactly when they are the same value, numbers compared by exact decimal
    value. */
module CanonicalJson {
  import opened Decimal
  import opened Hexadecimal

  /** A decoded JSON value. An object is a map; its members are listed by key, the
      order in which the canonical text writes them. */
  datatype Value =
    | Null
    | Bool(flag: bool)
    | Num(number: Number)
    | Text(text: string)
    | Arr(items: seq<Value>)
    | Obj(members: seq<Member>)

  datatype Member = Member(key: string, value: Value)

  // Printing --------------------------------------------------------------------------

  /** The characters that the encoder writes as \u escapes. */
  predicate Unicode(c: char) {
    c < ' ' || c == '<' || c == '>' || c == '&' || c == '\U{2028}' || c == '\U{2029}'
  }

  function Escape(c: char): (s: string)
    ensures s != []
  {
    if c == '"' then "\\\""
    else if c == '\\' then "\\\\"
    else if c == '\U{8}' then "\\b"
    else if c == '\U{c}' then "\\f"
    else if c == '\n' then "\\n"
    else if c == '\r' then "\\r"
    else if c == '\t' then "\\t"
    else if Unicode(c) then "\\u" + Hex(c as int, 4)
    else [c]
  }

  function EscapeAll(s: string): string {
    if s == [] then [] else Escape(s[0]) + EscapeAll(s[1..])
  }

  function Quote(s: string): string { "\"" + EscapeAll(s) + "\"" }

  function DigitText(s: seq<Digit>): (t: string)
    ensures |t| == |s| && forall i | 0 <= i < |s| :: t[i] == "0123456789"[s[i]]
  {
    seq(|s|, i requires 0 <= i < |s| => "0123456789"[s[i]])
  }

  function DigitsOf(n: nat): (s: seq<Digit>)
    ensures s != [] && NatOf(s) == n
  {
    if n < 10 then
      var s: seq<Digit> := [n];
      assert NatTo(s, 1) == 10 * NatTo(s, 0) + s[0];
      s
    else
      var front := DigitsOf(n / 10);
      var s := front + [n % 10];
      SameValueTo(s, front, 0, |front|);
      assert NatTo(s, |s| - 1) == n / 10;
      s
  }

  function IntText(n: int): (t: string)
    ensures t != []
  {
    if n < 0 then "-" + DigitText(DigitsOf(-n)) else DigitText(DigitsOf(n))
  }

  function NumberText(c: Canonical): string {
    match c
    case Zero => "number:0"
    case Scaled(negative, digits, exponent) =>
      "number:" + ((if negative then "-" else "") + (DigitText(digits) + ("e" + IntText(exponent))))
  }

  function Canon(v: Value): string {
    match v
    case Null => "null"
    case Bool(flag) => if flag then "true" else "false"
    case Num(number) => NumberText(CanonicalOf(number))
    case Text(text) => Quote(text)
    case Arr(items) => "[" + (CanonItems(items) + "]")
    case Obj(members) => "{" + (CanonMembers(members) + "}")
  }

  function CanonItems(items: seq<Value>): string {
    if items == [] then ""
    else Canon(items[0]) + (if |items| == 1 then "" else "," + CanonItems(items[1..]))
  }

  function CanonMember(m: Member): string { Quote(m.key) + (":" + Canon(m.value)) }

  function CanonMembers(members: seq<Member>): string {
    if members == [] then ""
    else CanonMember(members[0]) + (if |members| == 1 then "" else "," + CanonMembers(members[1..]))
  }

  /** The same JSON value: numbers by exact decimal value, everything else as it is. */
  predicate Same(v: Value, w: Value) {
    match (v, w)
    case (Num(a), Num(b)) => SameValue(a, b)
    case (Arr(a), Arr(b)) => SameItems(a, b)
    case (Obj(a), Obj(b)) => SameMembers(a, b)
    case _ => v == w
  }

  predicate SameItems(a: seq<Value>, b: seq<Value>) {
    |a| == |b| && (a != [] ==> Same(a[0], b[0]) && SameItems(a[1..], b[1..]))
  }

  predicate SameMembers(a: seq<Member>, b: seq<Member>) {
    |a| == |b| && (a != [] ==> a[0].key == b[0].key && Same(a[0].value, b[0].value) && SameMembers(a[1..], b[1..]))
  }

  // Strings -----------------------------------------------------------------------------

  /** The escapes of two characters are never prefixes of each other. */
  lemma EscapeIsACode(c: char, d: char, r: string, q: string)
    requires Escape(c) + r == Escape(d) + q
    ensures c == d && r == q
  {
    var all := Escape(c) + r;
    assert all[0] == Escape(c)[0] && all[0] == Escape(d)[0];
    if all[0] == '\\' {
      assert all[1] == Escape(c)[1] && all[1] == Escape(d)[1];
      if all[1] == 'u' {
        assert all[2..6] == Hex(c as int, 4) && all[2..6] == Hex(d as int, 4);
        assert Pow16(4) == 0x10000;
        HexInjective(c as int, d as int, 4);
      }
    }
    assert c == d;
    assert r == all[|Escape(c)|..] && q == all[|Escape(d)|..];
  }

  lemma Assoc(a: string, b: string, c: string)
    ensures (a + b) + c == a + (b + c)
  {
  }

  lemma SameTail(a: char, b: char, r: string, q: string)
    requires [a] + r == [b] + q
    ensures a == b && r == q
  {
    assert ([a] + r)[0] == a && ([b] + q)[0] == b && ([a] + r)[1..] == r && ([b] + q)[1..] == q;
  }

  lemma EscapedStart(s: string, r: string)
    requires s != []
    ensures EscapeAll(s) + r == Escape(s[0]) + (EscapeAll(s[1..]) + r) && (EscapeAll(s) + r)[0] != '"'
  {
    Assoc(Escape(s[0]), EscapeAll(s[1..]), r);
    assert (EscapeAll(s) + r)[0] == Escape(s[0])[0];
  }

  lemma {:induction false} QuotedEnds(s: string, t: string, r: string, q: string)
    requires EscapeAll(s) + (['"'] + r) == EscapeAll(t) + (['"'] + q)
    ensures s == t && r == q
  {
    if s == [] || t == [] {
      if s != [] { EscapedStart(s, ['"'] + r); }
      if t != [] { EscapedStart(t, ['"'] + q); }
      assert [] + (['"'] + r) == ['"'] + r && [] + (['"'] + q) == ['"'] + q;
      SameTail('"', '"', r, q);
    } else {
      EscapedStart(s, ['"'] + r);
      EscapedStart(t, ['"'] + q);
      EscapeIsACode(s[0], t[0], EscapeAll(s[1..]) + (['"'] + r), EscapeAll(t[1..]) + (['"'] + q));
      QuotedEnds(s[1..], t[1..], r, q);
      assert s == [s[0]] + s[1..] && t == [t[0]] + t[1..];
    }
  }

  lemma QuoteIs(s: string, r: string)
    ensures Quote(s) + r == ['"'] + (EscapeAll(s) + (['"'] + r))
  {
    Assoc(['"'] + EscapeAll(s), ['"'], r);
    Assoc(['"'], EscapeAll(s), ['"'] + r);
  }

  lemma QuoteEnds(s: string, t: string, r: string, q: string)
    requires Quote(s) + r == Quote(t) + q
    ensures s == t && r == q
  {
    QuoteIs(s, r);
    QuoteIs(t, q);
    SameTail('"', '"', EscapeAll(s) + (['"'] + r), EscapeAll(t) + (['"'] + q));
    QuotedEnds(s, t, r, q);
  }

  // Numbers ------------------------------------------------------------------------------

  /** A number, word or literal ends where one of these characters or the text ends. */
  predicate Stops(r: string) {
    r == [] || r[0] == ',' || r[0] == ']' || r[0] == '}'
  }

  predicate IsDigit(c: char) { '0' <= c <= '9' }

  lemma DigitChars(s: seq<Digit>)
    ensures forall i | 0 <= i < |s| :: IsDigit(DigitText(s)[i])
  {
  }

  /** How many digits a text starts with. */
  function Run(t: string): nat { if t == [] || !IsDigit(t[0]) then 0 else 1 + Run(t[1..]) }

  lemma {:induction false} RunLength(s: seq<Digit>, r: string)
    requires r == [] || !IsDigit(r[0])
    ensures Run(DigitText(s) + r) == |s|
  {
    DigitChars(s);
    if s == [] {
      assert DigitText(s) + r == r;
    } else {
      assert (DigitText(s) + r)[1..] == DigitText(s[1..]) + r;
      RunLength(s[1..], r);
    }
  }

  /** Digit runs followed by a non-digit are found again. */
  lemma DigitsEnd(s: seq<Digit>, t: seq<Digit>, r: string, q: string)
    requires DigitText(s) + r == DigitText(t) + q
    requires (r == [] || !IsDigit(r[0])) && (q == [] || !IsDigit(q[0]))
    ensures s == t && r == q
  {
    RunLength(s, r);
    RunLength(t, q);
    var all := DigitText(s) + r;
    assert all[..|s|] == DigitText(s) && all[..|s|] == DigitText(t);
    assert all[|s|..] == r && all[|s|..] == q;
    forall i | 0 <= i < |s| ensures s[i] == t[i] {
      assert DigitText(s)[i] == DigitText(t)[i];
    }
  }

  lemma IntEnds(m: int, n: int, r: string, q: string)
    requires IntText(m) + r == IntText(n) + q && Stops(r) && Stops(q)
    ensures m == n && r == q
  {
    var a, b := DigitsOf(if m < 0 then -m else m), DigitsOf(if n < 0 then -n else n);
    DigitChars(a);
    DigitChars(b);
    assert (IntText(m) + r)[0] == IntText(m)[0] && (IntText(n) + q)[0] == IntText(n)[0];
    assert m < 0 <==> n < 0;
    if m < 0 {
      Assoc(['-'], DigitText(a), r);
      Assoc(['-'], DigitText(b), q);
      SameTail('-', '-', DigitText(a) + r, DigitText(b) + q);
    }
    DigitsEnd(a, b, r, q);
  }

  /** The part of a number's text after "number:". */
  function Magnitude(c: Canonical): string
    requires c.Scaled?
  {
    DigitText(c.digits) + ("e" + IntText(c.exponent))
  }

  lemma MagnitudeEnds(c: Canonical, d: Canonical, r: string, q: string)
    requires c.Scaled? && d.Scaled? && Stops(r) && Stops(q) && Magnitude(c) + r == Magnitude(d) + q
    ensures c.digits == d.digits && c.exponent == d.exponent && r == q
  {
    Assoc(DigitText(c.digits), "e" + IntText(c.exponent), r);
    Assoc(DigitText(d.digits), "e" + IntText(d.exponent), q);
    Assoc(['e'], IntText(c.exponent), r);
    Assoc(['e'], IntText(d.exponent), q);
    DigitsEnd(c.digits, d.digits, ['e'] + (IntText(c.exponent) + r), ['e'] + (IntText(d.exponent) + q));
    SameTail('e', 'e', IntText(c.exponent) + r, IntText(d.exponent) + q);
    IntEnds(c.exponent, d.exponent, r, q);
  }

  /** The text after "number:" starts with '0' only for zero, with '-' only for negatives. */
  function Signed(c: Canonical): string {
    match c
    case Zero => "0"
    case Scaled(negative, _, _) => (if negative then "-" else "") + Magnitude(c)
  }

  lemma FirstDigit(d: Digit)
    ensures "0123456789"[d] != '-' && ("0123456789"[d] == '0' <==> d == 0)
  {
  }

  lemma SignedStart(c: Canonical)
    requires CanonicalForm(c)
    ensures Signed(c) != []
    ensures Signed(c)[0] == '0' <==> c.Zero?
    ensures Signed(c)[0] == '-' <==> c.Scaled? && c.negative
  {
    if c.Scaled? {
      DigitChars(c.digits);
      assert Magnitude(c)[0] == DigitText(c.digits)[0] == "0123456789"[c.digits[0]];
      FirstDigit(c.digits[0]);
    }
  }

  lemma SignedEnds(c: Canonical, d: Canonical, r: string, q: string)
    requires CanonicalForm(c) && CanonicalForm(d) && Stops(r) && Stops(q) && Signed(c) + r == Signed(d) + q
    ensures c == d && r == q
  {
    SignedStart(c);
    SignedStart(d);
    assert (Signed(c) + r)[0] == Signed(c)[0] && (Signed(d) + q)[0] == Signed(d)[0];
    if c.Zero? {
      SameTail('0', '0', r, q);
    } else {
      if c.negative {
        Assoc(['-'], Magnitude(c), r);
        Assoc(['-'], Magnitude(d), q);
        SameTail('-', '-', Magnitude(c) + r, Magnitude(d) + q);
      } else {
        assert Signed(c) == Magnitude(c) && Signed(d) == Magnitude(d);
      }
      MagnitudeEnds(c, d, r, q);
    }
  }

  lemma SamePrefix(a: string, x: string, y: string)
    requires a + x == a + y
    ensures x == y
  {
    assert (a + x)[|a|..] == x && (a + y)[|a|..] == y;
  }

  lemma NumberTextIs(c: Canonical)
    ensures NumberText(c) == "number:" + Signed(c)
  {
  }

  lemma NumberEnds(c: Canonical, d: Canonical, r: string, q: string)
    requires CanonicalForm(c) && CanonicalForm(d) && Stops(r) && Stops(q) && NumberText(c) + r == NumberText(d) + q
    ensures c == d && r == q
  {
    NumberTextIs(c);
    NumberTextIs(d);
    Assoc("number:", Signed(c), r);
    Assoc("number:", Signed(d), q);
    SamePrefix("number:", Signed(c) + r, Signed(d) + q);
    SignedEnds(c, d, r, q);
  }

  lemma NumbersEnd(m: Number, n: Number, r: string, q: string)
    requires Stops(r) && Stops(q) && NumberText(CanonicalOf(m)) + r == NumberText(CanonicalOf(n)) + q
    ensures SameValue(m, n) && r == q
  {
    CanonicalForms(PartsOf(m));
    CanonicalForms(PartsOf(n));
    NumberEnds(CanonicalOf(m), CanonicalOf(n), r, q);
    CanonicalDecidesValue(m, n);
  }

  // Values ----------------------------------------------------------------------------------

  /** Every text tells its kind of value within three characters. */
  predicate Announces(t: string, v: Value) {
    && |t| >= 2
    && (t[0] == 't' <==> v == Bool(true)) && (t[0] == 'f' <==> v == Bool(false))
    && (t[0] == '"' <==> v.Text?) && (t[0] == '[' <==> v.Arr?) && (t[0] == '{' <==> v.Obj?)
    && (t[0] == 'n' <==> v.Null? || v.Num?) && t[0] != ']' && t[0] != '}'
    && (v.Null? || v.Num? ==> |t| > 2 && (t[2] == 'l' <==> v.Null?))
  }

  lemma NumberAnnounces(c: Canonical)
    ensures |NumberText(c)| > 2 && NumberText(c)[0] == 'n' && NumberText(c)[2] == 'm'
  {
    NumberTextIs(c);
    Prefixed(Signed(c));
  }

  lemma Prefixed(x: string)
    ensures |"number:" + x| > 2 && ("number:" + x)[0] == 'n' && ("number:" + x)[2] == 'm'
  {
  }

  lemma CanonAnnounces(v: Value)
    ensures Announces(Canon(v), v)
  {
    match v
    case Num(n) => NumberAnnounces(CanonicalOf(n));
    case _ =>
  }

  lemma Kinds(v: Value, r: string)
    ensures Announces(Canon(v) + r, v)
  {
    CanonAnnounces(v);
    assert forall i | 0 <= i < |Canon(v)| :: (Canon(v) + r)[i] == Canon(v)[i];
  }

  /** Texts of values are self-delimiting: what follows them is found again, and the
      values are the same. */
  lemma {:induction false} ValueEnds(v: Value, w: Value, r: string, q: string)
    requires Canon(v) + r == Canon(w) + q && Stops(r) && Stops(q)
    ensures Same(v, w) && r == q
    decreases v
  {
    Kinds(v, r);
    Kinds(w, q);
    match v
    case Null => SamePrefix("null", r, q);
    case Bool(flag) => SamePrefix(if flag then "true" else "false", r, q);
    case Num(n) =>
      NumbersEnd(n, w.number, r, q);
    case Text(text) => QuoteEnds(text, w.text, r, q);
    case Arr(items) =>
      Bracketed('[', CanonItems(items), ']', r);
      Bracketed('[', CanonItems(w.items), ']', q);
      SameTail('[', '[', CanonItems(items) + ([']'] + r), CanonItems(w.items) + ([']'] + q));
      ItemsEnd(items, w.items, r, q);
    case Obj(members) =>
      Bracketed('{', CanonMembers(members), '}', r);
      Bracketed('{', CanonMembers(w.members), '}', q);
      SameTail('{', '{', CanonMembers(members) + (['}'] + r), CanonMembers(w.members) + (['}'] + q));
      MembersEnd(members, w.members, r, q);
  }

  lemma Bracketed(open: char, inner: string, close: char, r: string)
    ensures ([open] + (inner + [close])) + r == [open] + (inner + ([close] + r))
  {
    Assoc([open], inner + [close], r);
    Assoc(inner, [close], r);
  }

  /** What follows the first of several texts. */
  function Rest(more: bool, tail: string, close: char, r: string): string {
    if more then [','] + (tail + ([close] + r)) else [close] + r
  }

  lemma ItemsSplit(items: seq<Value>, r: string)
    requires items != []
    ensures CanonItems(items) + ([']'] + r) == Canon(items[0]) + Rest(|items| > 1, CanonItems(items[1..]), ']', r)
  {
    if |items| > 1 {
      var first, tail := Canon(items[0]), CanonItems(items[1..]);
      assert CanonItems(items) == first + ("," + tail);
      FirstOf(first, tail, [']'] + r);
    } else {
      assert CanonItems(items) == Canon(items[0]) + "" == Canon(items[0]);
    }
  }

  lemma FirstOf(first: string, tail: string, r: string)
    ensures (first + ("," + tail)) + r == first + ([','] + (tail + r))
  {
    Assoc(first, [','] + tail, r);
    Assoc([','], tail, r);
  }

  lemma {:induction false} ItemsEnd(a: seq<Value>, b: seq<Value>, r: string, q: string)
    requires CanonItems(a) + ([']'] + r) == CanonItems(b) + ([']'] + q)
    ensures SameItems(a, b) && r == q
    decreases a
  {
    if a != [] { ItemsSplit(a, r); Kinds(a[0], Rest(|a| > 1, CanonItems(a[1..]), ']', r)); }
    if b != [] { ItemsSplit(b, q); Kinds(b[0], Rest(|b| > 1, CanonItems(b[1..]), ']', q)); }
    if a == [] || b == [] {
      assert a == [] ==> CanonItems(a) + ([']'] + r) == [']'] + r;
      assert b == [] ==> CanonItems(b) + ([']'] + q) == [']'] + q;
      SameTail(']', ']', r, q);
    } else {
      var x, y := Rest(|a| > 1, CanonItems(a[1..]), ']', r), Rest(|b| > 1, CanonItems(b[1..]), ']', q);
      ValueEnds(a[0], b[0], x, y);
      assert x[0] == y[0];
      if |a| > 1 {
        SameTail(',', ',', CanonItems(a[1..]) + ([']'] + r), CanonItems(b[1..]) + ([']'] + q));
        ItemsEnd(a[1..], b[1..], r, q);
      } else {
        SameTail(']', ']', r, q);
      }
    }
  }

  lemma MembersSplit(members: seq<Member>, r: string)
    requires members != []
    ensures CanonMembers(members) + (['}'] + r) ==
      Quote(members[0].key) + ([':'] + (Canon(members[0].value) + Rest(|members| > 1, CanonMembers(members[1..]), '}', r)))
  {
    var m, rest := members[0], Rest(|members| > 1, CanonMembers(members[1..]), '}', r);
    if |members| > 1 {
      Assoc(CanonMember(m), [','] + CanonMembers(members[1..]), ['}'] + r);
      Assoc([','], CanonMembers(members[1..]), ['}'] + r);
    }
    Assoc(Quote(m.key), [':'] + Canon(m.value), rest);
    Assoc([':'], Canon(m.value), rest);
  }

  lemma QuoteStart(s: string, r: string)
    ensures (Quote(s) + r)[0] == '"'
  {
  }

  lemma {:induction false} MembersEnd(a: seq<Member>, b: seq<Member>, r: string, q: string)
    requires CanonMembers(a) + (['}'] + r) == CanonMembers(b) + (['}'] + q)
    ensures SameMembers(a, b) && r == q
    decreases a
  {
    var x, y := Rest(|a| > 1, if a == [] then [] else CanonMembers(a[1..]), '}', r), Rest(|b| > 1, if b == [] then [] else CanonMembers(b[1..]), '}', q);
    if a != [] { MembersSplit(a, r); QuoteStart(a[0].key, [':'] + (Canon(a[0].value) + x)); }
    if b != [] { MembersSplit(b, q); QuoteStart(b[0].key, [':'] + (Canon(b[0].value) + y)); }
    if a == [] || b == [] {
      assert a == [] ==> CanonMembers(a) + (['}'] + r) == ['}'] + r;
      assert b == [] ==> CanonMembers(b) + (['}'] + q) == ['}'] + q;
      SameTail('}', '}', r, q);
    } else {
      QuoteEnds(a[0].key, b[0].key, [':'] + (Canon(a[0].value) + x), [':'] + (Canon(b[0].value) + y));
      SameTail(':', ':', Canon(a[0].value) + x, Canon(b[0].value) + y);
      ValueEnds(a[0].value, b[0].value, x, y);
      assert x[0] == y[0];
      if |a| > 1 {
        SameTail(',', ',', CanonMembers(a[1..]) + (['}'] + r), CanonMembers(b[1..]) + (['}'] + q));
        MembersEnd(a[1..], b[1..], r, q);
      } else {
        SameTail('}', '}', r, q);
      }
    }
  }

  lemma {:induction false} SameIsCanonical(v: Value, w: Value)
    requires Same(v, w)
    ensures Canon(v) == Canon(w)
    decreases v
  {
    match v
    case Num(n) => CanonicalDecidesValue(n, w.number);
    case Arr(items) => SameItemsCanonical(items, w.items);
    case Obj(members) => SameMembersCanonical(members, w.members);
    case _ =>
  }

  lemma {:induction false} SameItemsCanonical(a: seq<Value>, b: seq<Value>)
    requires SameItems(a, b)
    ensures CanonItems(a) == CanonItems(b)
    decreases a
  {
    if a != [] {
      SameIsCanonical(a[0], b[0]);
      SameItemsCanonical(a[1..], b[1..]);
    }
  }

  lemma {:induction false} SameMembersCanonical(a: seq<Member>, b: seq<Member>)
    requires SameMembers(a, b)
    ensures CanonMembers(a) == CanonMembers(b)
    decreases a
  {
    if a != [] {
      SameIsCanonical(a[0].value, b[0].value);
      SameMembersCanonical(a[1..], b[1..]);
    }
  }

  /** Canonical JSON decides equality. */
  lemma CanonicalDecidesEquality(v: Value, w: Value)
    ensures Canon(v) == Canon(w) <==> Same(v, w)
  {
    if Canon(v) == Canon(w) {
      assert Canon(v) + [] == Canon(w) + [];
      ValueEnds(v, w, [], []);
    }
    if Same(v, w) { SameIsCanonical(v, w); }
  }

  // Objects ------------------------------------------------------------------------------

  /** The order of sort.Strings. */
  predicate Before(a: string, b: string) {
    b != "" && (a == "" || a[0] < b[0] || (a[0] == b[0] && Before(a[1..], b[1..])))
  }

  lemma {:induction false} BeforeIsTotal(a: string, b: string)
    ensures !(Before(a, b) && Before(b, a)) && (a == b || Before(a, b) || Before(b, a)) && !Before(a, a)
    decreases |a|
  {
    if a != "" && b != "" {
      BeforeIsTotal(a[1..], b[1..]);
      BeforeIsTotal(a[1..], a[1..]);
      assert a == [a[0]] + a[1..] && b == [b[0]] + b[1..];
    } else if a != "" {
      BeforeIsTotal(a[1..], a[1..]);
    }
  }

  lemma {:induction false} BeforeIsTransitive(a: string, b: string, c: string)
    requires Before(a, b) && Before(b, c)
    ensures Before(a, c)
    decreases |a|
  {
    if a != "" && a[0] == b[0] == c[0] { BeforeIsTransitive(a[1..], b[1..], c[1..]); }
  }

  predicate IsFirst(key: string, keys: set<string>) { key in keys && forall k | k in keys :: k == key || Before(key, k) }

  lemma {:induction false} FirstExists(keys: set<string>)
    requires keys != {}
    ensures exists key :: IsFirst(key, keys)
    decreases keys
  {
    var key :| key in keys;
    var rest := keys - {key};
    assert forall k | k in keys :: k == key || k in rest;
    if rest == {} {
      assert IsFirst(key, keys);
    } else {
      FirstExists(rest);
      var other :| IsFirst(other, rest);
      BeforeIsTotal(key, other);
      if Before(other, key) {
        assert IsFirst(other, keys);
      } else {
        forall k | k in rest && k != other ensures Before(key, k) { BeforeIsTransitive(key, other, k); }
        assert IsFirst(key, keys);
      }
    }
  }

  ghost function First(keys: set<string>): (key: string)
    requires keys != {}
    ensures IsFirst(key, keys)
  {
    FirstExists(keys);
    var key :| IsFirst(key, keys);
    key
  }

  /** The members of an object as the encoder lists them: by sorted key. */
  ghost function Listing(fields: map<string, Value>): seq<Member>
    decreases fields.Keys
  {
    if fields.Keys == {} then []
    else
      var key := First(fields.Keys);
      [Member(key, fields[key])] + Listing(fields - {key})
  }

  lemma {:induction false} ListingsSame(a: map<string, Value>, b: map<string, Value>)
    ensures SameMembers(Listing(a), Listing(b)) <==> a.Keys == b.Keys && forall k | k in a.Keys :: Same(a[k], b[k])
    decreases a.Keys
  {
    if a.Keys != {} && b.Keys != {} {
      var k, l := First(a.Keys), First(b.Keys);
      var c, d := a - {k}, b - {l};
      ListingsSame(c, d);
      assert Listing(a)[1..] == Listing(c) && Listing(b)[1..] == Listing(d);
      assert c.Keys == a.Keys - {k} && d.Keys == b.Keys - {l};
      assert a.Keys == c.Keys + {k} && b.Keys == d.Keys + {l};
      if a.Keys == b.Keys {
        BeforeIsTotal(k, l);
        assert k == l;
      }
    }
  }

  /** Two objects have the same canonical text exactly when they have the same keys with
      the same values, in whatever order their members were written. */
  lemma ObjectsByContent(a: map<string, Value>, b: map<string, Value>)
    ensures Canon(Obj(Listing(a))) == Canon(Obj(Listing(b)))
       <==> a.Keys == b.Keys && forall k | k in a.Keys :: Same(a[k], b[k])
  {
    CanonicalDecidesEquality(Obj(Listing(a)), Obj(Listing(b)));
    ListingsSame(a, b);
  }
}
