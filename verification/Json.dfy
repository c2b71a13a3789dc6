/**
 JSON text as the clients print and read it: RFC 8259, with strings printed as section 7
 requires and, like ECMAScript's `JSON.stringify`, lone surrogates escaped too. A number is
 kept as its text.
 */
module Json {
  import opened Wrappers
  import opened Utf16

  datatype Json =
    | JNull
    | JBool(value: bool)
    | JNumber(lexeme: Text)
    | JString(text: Text)
    | JArray(items: Items)
    | JObject(members: Members)
  datatype Items = NoItems | Item(head: Json, rest: Items)
  datatype Members = NoMembers | Member(name: Text, value: Json, others: Members)

  const QUOTE := '"' as int
  const BACKSLASH := '\\' as int
  const COMMA := ',' as int
  const COLON := ':' as int
  const OPEN_BRACE := '{' as int
  const CLOSE_BRACE := '}' as int
  const OPEN_BRACKET := '[' as int
  const CLOSE_BRACKET := ']' as int

  function HexDigit(n: int): int
    requires 0 <= n < 16
  {
    if n < 10 then '0' as int + n else 'a' as int + (n - 10)
  }

  function EscapeUnit(u: int): (r: Text)
    requires 0 <= u < 0x10000
    ensures 1 <= |r| <= 6 && AllUnits(r)
  {
    if u == QUOTE || u == BACKSLASH then [BACKSLASH, u]
    else if u == 8 then [BACKSLASH, 'b' as int]
    else if u == 9 then [BACKSLASH, 't' as int]
    else if u == 10 then [BACKSLASH, 'n' as int]
    else if u == 12 then [BACKSLASH, 'f' as int]
    else if u == 13 then [BACKSLASH, 'r' as int]
    else if u < 0x20 || IsHigh(u) || IsLow(u) then
      [BACKSLASH, 'u' as int, HexDigit(u / 4096), HexDigit(u / 256 % 16), HexDigit(u / 16 % 16), HexDigit(u % 16)]
    else [u]
  }

  /** A surrogate pair stays as it is; everything else is escaped unit by unit. */
  function Escape(s: Text): (r: Text)
    requires AllUnits(s)
    ensures AllUnits(r) && |s| <= |r| <= 6 * |s|
  {
    if s == [] then []
    else if Paired(s) then s[..2] + Escape(s[2..])
    else EscapeUnit(s[0]) + Escape(s[1..])
  }

  function Quoted(s: Text): (r: Text)
    requires AllUnits(s)
    ensures AllUnits(r)
  {
    [QUOTE] + Escape(s) + [QUOTE]
  }

  const NULL := Ascii("null")
  const TRUE := Ascii("true")
  const FALSE := Ascii("false")

  /** Texts in the value are code units and its numbers are in the grammar of section 6. */
  predicate WellFormed(v: Json) {
    match v
    case JNumber(lexeme) => ValidNumber(lexeme)
    case JString(text) => AllUnits(text)
    case JArray(items) => WellFormedItems(items)
    case JObject(members) => WellFormedMembers(members)
    case _ => true
  }

  predicate WellFormedItems(items: Items) {
    items.Item? ==> WellFormed(items.head) && WellFormedItems(items.rest)
  }

  predicate WellFormedMembers(members: Members) {
    members.Member? ==>
      AllUnits(members.name) && WellFormed(members.value) && WellFormedMembers(members.others)
  }

  function Stringify(v: Json): (r: Text)
    requires WellFormed(v)
    ensures AllUnits(r)
  {
    match v
    case JNull => NULL
    case JBool(b) => if b then TRUE else FALSE
    case JNumber(lexeme) => lexeme
    case JString(text) => Quoted(text)
    case JArray(items) => [OPEN_BRACKET] + ItemsText(items) + [CLOSE_BRACKET]
    case JObject(members) => [OPEN_BRACE] + MembersText(members) + [CLOSE_BRACE]
  }

  function ItemsText(items: Items): (r: Text)
    requires WellFormedItems(items)
    ensures AllUnits(r)
  {
    match items
    case NoItems => []
    case Item(head, NoItems) => Stringify(head)
    case Item(head, rest) => Stringify(head) + [COMMA] + ItemsText(rest)
  }

  function MembersText(members: Members): (r: Text)
    requires WellFormedMembers(members)
    ensures AllUnits(r)
  {
    match members
    case NoMembers => []
    case Member(name, value, NoMembers) => Quoted(name) + [COLON] + Stringify(value)
    case Member(name, value, others) => Quoted(name) + [COLON] + Stringify(value) + [COMMA] + MembersText(others)
  }

  // Reading.

  predicate IsJsonBlank(u: int) { u == 0x20 || u == 9 || u == 10 || u == 13 }

  function SkipBlanks(s: Text): (r: Text)
    ensures |r| <= |s|
  {
    if s != [] && IsJsonBlank(s[0]) then SkipBlanks(s[1..]) else s
  }

  function Unescape(u: int): Option<int> {
    if u == QUOTE || u == BACKSLASH || u == '/' as int then Some(u)
    else if u == 'b' as int then Some(8)
    else if u == 't' as int then Some(9)
    else if u == 'n' as int then Some(10)
    else if u == 'f' as int then Some(12)
    else if u == 'r' as int then Some(13)
    else None
  }

  /** The rest of a string literal after its opening quote, and what follows it. */
  function ParseChars(s: Text): (r: Option<(Text, Text)>)
    ensures r.Some? ==> |r.value.1| < |s|
  {
    if s == [] || s[0] < 0x20 then None
    else if s[0] == QUOTE then Some(([], s[1..]))
    else if s[0] != BACKSLASH then Prepend(s[0], ParseChars(s[1..]))
    else if |s| >= 6 && s[1] == 'u' as int && IsHex(s[2]) && IsHex(s[3]) && IsHex(s[4]) && IsHex(s[5]) then
      Prepend(4096 * HexValue(s[2]) + 256 * HexValue(s[3]) + 16 * HexValue(s[4]) + HexValue(s[5]), ParseChars(s[6..]))
    else if |s| >= 2 && Unescape(s[1]).Some? then Prepend(Unescape(s[1]).value, ParseChars(s[2..]))
    else None
  }

  function Prepend(u: int, r: Option<(Text, Text)>): Option<(Text, Text)> {
    if r.None? then None else Some(([u] + r.value.0, r.value.1))
  }

  function DigitRun(s: Text, i: nat): (k: nat)
    requires i <= |s|
    ensures i <= k <= |s|
    decreases |s| - i
  {
    if i < |s| && IsDigit(s[i]) then DigitRun(s, i + 1) else i
  }

  predicate DigitAt(s: Text, i: nat) { i < |s| && IsDigit(s[i]) }

  /** The end of the longest number at the start of the text. */
  function NumberEnd(s: Text): (r: Option<nat>)
    ensures r.Some? ==> 1 <= r.value <= |s|
  {
    var start := if s != [] && s[0] == '-' as int then 1 else 0;
    if !DigitAt(s, start) then None
    else
      var whole := if s[start] == '0' as int then start + 1 else DigitRun(s, start);
      var fraction := FractionEnd(s, whole);
      Some(ExponentEnd(s, fraction))
  }

  function FractionEnd(s: Text, i: nat): (k: nat)
    requires i <= |s|
    ensures i <= k <= |s|
  {
    if i < |s| && s[i] == '.' as int && DigitAt(s, i + 1) then DigitRun(s, i + 1) else i
  }

  function ExponentEnd(s: Text, i: nat): (k: nat)
    requires i <= |s|
    ensures i <= k <= |s|
  {
    if i < |s| && Lower(s[i]) == 'e' as int then
      var sign := if i + 1 < |s| && (s[i + 1] == '+' as int || s[i + 1] == '-' as int) then i + 2 else i + 1;
      if DigitAt(s, sign) then DigitRun(s, sign) else i
    else i
  }

  predicate ValidNumber(lexeme: Text) {
    NumberEnd(lexeme) == Some(|lexeme|) && AllUnits(lexeme)
  }

  predicate StartsWith(s: Text, prefix: Text) {
    |prefix| <= |s| && s[..|prefix|] == prefix
  }

  function ParseValue(blanks: Text): (r: Option<(Json, Text)>)
    ensures r.Some? ==> |r.value.1| < |blanks|
    decreases |blanks|, 1
  {
    var s := SkipBlanks(blanks);
    if s == [] then None
    else if s[0] == QUOTE then
      var chars := ParseChars(s[1..]);
      if chars.None? then None else Some((JString(chars.value.0), chars.value.1))
    else if s[0] == OPEN_BRACE then
      var t := SkipBlanks(s[1..]);
      if t != [] && t[0] == CLOSE_BRACE then Some((JObject(NoMembers), t[1..]))
      else
        var members := ParseMembers(t);
        if members.None? then None else Some((JObject(members.value.0), members.value.1))
    else if s[0] == OPEN_BRACKET then
      var t := SkipBlanks(s[1..]);
      if t != [] && t[0] == CLOSE_BRACKET then Some((JArray(NoItems), t[1..]))
      else
        var items := ParseItems(t);
        if items.None? then None else Some((JArray(items.value.0), items.value.1))
    else if StartsWith(s, NULL) then Some((JNull, s[4..]))
    else if StartsWith(s, TRUE) then Some((JBool(true), s[4..]))
    else if StartsWith(s, FALSE) then Some((JBool(false), s[5..]))
    else
      var end := NumberEnd(s);
      if end.None? then None else Some((JNumber(s[..end.value]), s[end.value..]))
  }

  /** One or more members and the closing brace. */
  function ParseMembers(s: Text): (r: Option<(Members, Text)>)
    ensures r.Some? ==> |r.value.1| < |s|
    decreases |s|, 2
  {
    if s == [] || s[0] != QUOTE then None
    else
      var name := ParseChars(s[1..]);
      if name.None? then None
      else
        var colon := SkipBlanks(name.value.1);
        if colon == [] || colon[0] != COLON then None
        else
          var value := ParseValue(colon[1..]);
          if value.None? then None
          else
            var next := SkipBlanks(value.value.1);
            if next == [] then None
            else if next[0] == CLOSE_BRACE then
              Some((Member(name.value.0, value.value.0, NoMembers), next[1..]))
            else if next[0] != COMMA then None
            else
              var others := ParseMembers(SkipBlanks(next[1..]));
              if others.None? then None
              else Some((Member(name.value.0, value.value.0, others.value.0), others.value.1))
  }

  /** One or more items and the closing bracket. */
  function ParseItems(s: Text): (r: Option<(Items, Text)>)
    ensures r.Some? ==> |r.value.1| < |s|
    decreases |s|, 2
  {
    var value := ParseValue(s);
    if value.None? then None
    else
      var next := SkipBlanks(value.value.1);
      if next == [] then None
      else if next[0] == CLOSE_BRACKET then Some((Item(value.value.0, NoItems), next[1..]))
      else if next[0] != COMMA then None
      else
        var rest := ParseItems(next[1..]);
        if rest.None? then None else Some((Item(value.value.0, rest.value.0), rest.value.1))
  }

  /** `JSON.parse`, with `None` for its exception. */
  function Parse(s: Text): Option<Json> {
    var r := ParseValue(s);
    if r.Some? && SkipBlanks(r.value.1) == [] then Some(r.value.0) else None
  }

  // Printing and then reading gives the value back.

  lemma Assoc(a: Text, b: Text, c: Text)
    ensures (a + b) + c == a + (b + c)
  {
  }

  lemma HexRoundTrip(n: int)
    requires 0 <= n < 16
    ensures IsHex(HexDigit(n)) && HexValue(HexDigit(n)) == n
  {
  }

  lemma HexEscape(a: int, b: int, c: int, d: int, rest: Text)
    requires IsHex(a) && IsHex(b) && IsHex(c) && IsHex(d)
    ensures ParseChars([BACKSLASH, 'u' as int, a, b, c, d] + rest) ==
            Prepend(4096 * HexValue(a) + 256 * HexValue(b) + 16 * HexValue(c) + HexValue(d), ParseChars(rest))
  {
    hide HexValue, IsHex, Unescape;
    var s := [BACKSLASH, 'u' as int, a, b, c, d] + rest;
    assert s[6..] == rest;
  }

  lemma ShortEscape(c: int, rest: Text)
    requires Unescape(c).Some?
    ensures ParseChars([BACKSLASH, c] + rest) == Prepend(Unescape(c).value, ParseChars(rest))
  {
    var s := [BACKSLASH, c] + rest;
    assert s[2..] == rest && c != 'u' as int;
  }

  lemma PlainChar(u: int, rest: Text)
    requires u >= 0x20 && u != QUOTE && u != BACKSLASH
    ensures ParseChars([u] + rest) == Prepend(u, ParseChars(rest))
  {
    assert ([u] + rest)[1..] == rest;
  }

  lemma UnitRoundTrip(u: int, rest: Text)
    requires 0 <= u < 0x10000
    ensures ParseChars(EscapeUnit(u) + rest) == Prepend(u, ParseChars(rest))
  {
    hide ParseChars, Prepend;
    var e := EscapeUnit(u);
    if |e| == 1 {
      PlainChar(u, rest);
    } else if |e| == 2 {
      assert e == [BACKSLASH, e[1]] && Unescape(e[1]) == Some(u);
      ShortEscape(e[1], rest);
    } else {
      HexUnit(u, rest);
    }
  }

  lemma HexSum(u: int)
    requires 0 <= u < 0x10000
    ensures 4096 * (u / 4096) + 256 * (u / 256 % 16) + 16 * (u / 16 % 16) + u % 16 == u
    ensures 0 <= u / 4096 < 16
  {
    assert u / 16 / 16 == u / 256 && u / 256 / 16 == u / 4096;
  }

  lemma HexUnit(u: int, rest: Text)
    requires 0 <= u < 0x10000
    ensures ParseChars([BACKSLASH, 'u' as int, HexDigit(u / 4096), HexDigit(u / 256 % 16),
                        HexDigit(u / 16 % 16), HexDigit(u % 16)] + rest)
            == Prepend(u, ParseChars(rest))
  {
    HexSum(u);
    var a, b, c, d := u / 4096, u / 256 % 16, u / 16 % 16, u % 16;
    HexRoundTrip(a);
    HexRoundTrip(b);
    HexRoundTrip(c);
    HexRoundTrip(d);
    hide ParseChars, Prepend, HexDigit, HexValue, IsHex;
    HexEscape(HexDigit(a), HexDigit(b), HexDigit(c), HexDigit(d), rest);
  }

  lemma ReadPair(s: Text, tail: Text, rest: Text)
    requires Paired(s) && ParseChars(tail) == Some((s[2..], rest))
    ensures ParseChars(s[..2] + tail) == Some((s, rest))
  {
    hide ParseChars;
    PlainChar(s[1], tail);
    PlainChar(s[0], [s[1]] + tail);
    assert s[..2] + tail == [s[0]] + ([s[1]] + tail);
    assert s == [s[0]] + ([s[1]] + s[2..]);
  }

  lemma ReadUnit(s: Text, tail: Text, rest: Text)
    requires s != [] && 0 <= s[0] < 0x10000 && ParseChars(tail) == Some((s[1..], rest))
    ensures ParseChars(EscapeUnit(s[0]) + tail) == Some((s, rest))
  {
    hide ParseChars, EscapeUnit;
    UnitRoundTrip(s[0], tail);
    assert s == [s[0]] + s[1..];
  }

  lemma EscapeStep(s: Text, end: Text)
    requires s != [] && AllUnits(s)
    ensures Paired(s) ==> Escape(s) + end == s[..2] + (Escape(s[2..]) + end)
    ensures !Paired(s) ==> Escape(s) + end == EscapeUnit(s[0]) + (Escape(s[1..]) + end)
  {
    hide EscapeUnit;
    if Paired(s) {
      var tail := Escape(s[2..]);
      assert Escape(s) == s[..2] + tail;
      hide *;
      Assoc(s[..2], tail, end);
    } else {
      var first, tail := EscapeUnit(s[0]), Escape(s[1..]);
      assert Escape(s) == first + tail;
      hide *;
      Assoc(first, tail, end);
    }
  }

  lemma {:induction false} CharsRoundTrip(s: Text, rest: Text)
    requires AllUnits(s)
    ensures ParseChars(Escape(s) + ([QUOTE] + rest)) == Some((s, rest))
  {
    var end := [QUOTE] + rest;
    if s == [] {
      EndOfChars(rest);
      assert Escape(s) + end == end;
    } else {
      EscapeStep(s, end);
      hide EscapeUnit, ParseChars, Escape;
      if Paired(s) {
        CharsRoundTrip(s[2..], rest);
        ReadPair(s, Escape(s[2..]) + end, rest);
      } else {
        CharsRoundTrip(s[1..], rest);
        ReadUnit(s, Escape(s[1..]) + end, rest);
      }
    }
  }

  lemma EndOfChars(rest: Text)
    ensures ParseChars([QUOTE] + rest) == Some(([], rest))
  {
    assert ([QUOTE] + rest)[1..] == rest;
  }

  /** What may follow a value inside a printed text. */
  predicate Delimited(rest: Text) {
    rest == [] || rest[0] == COMMA || rest[0] == CLOSE_BRACE || rest[0] == CLOSE_BRACKET
  }

  lemma {:induction false} DigitRunStops(l: Text, rest: Text, i: nat)
    requires i <= |l| && Delimited(rest)
    ensures DigitRun(l + rest, i) == DigitRun(l, i)
    decreases |l| - i
  {
    if i < |l| {
      assert (l + rest)[i] == l[i];
      if IsDigit(l[i]) { DigitRunStops(l, rest, i + 1); }
    } else if rest != [] {
      assert (l + rest)[i] == rest[0];
    }
  }

  lemma DigitAtStops(l: Text, rest: Text, i: nat)
    requires Delimited(rest) && i <= |l|
    ensures DigitAt(l + rest, i) == DigitAt(l, i)
  {
    if i < |l| { assert (l + rest)[i] == l[i]; }
    else if rest != [] { assert (l + rest)[i] == rest[0]; }
  }

  lemma FractionStops(l: Text, rest: Text, i: nat)
    requires i <= |l| && Delimited(rest)
    ensures FractionEnd(l + rest, i) == FractionEnd(l, i)
  {
    if i < |l| {
      assert (l + rest)[i] == l[i];
      DigitAtStops(l, rest, i + 1);
      DigitRunStops(l, rest, i + 1);
    } else if rest != [] {
      assert (l + rest)[i] == rest[0];
    }
  }

  lemma ExponentStops(l: Text, rest: Text, i: nat)
    requires i <= |l| && Delimited(rest)
    ensures ExponentEnd(l + rest, i) == ExponentEnd(l, i)
  {
    if i < |l| {
      assert (l + rest)[i] == l[i];
      if i + 1 < |l| { assert (l + rest)[i + 1] == l[i + 1]; }
      else if rest != [] { assert (l + rest)[i + 1] == rest[0]; }
      DigitAtStops(l, rest, i + 1);
      DigitRunStops(l, rest, i + 1);
      if i + 2 <= |l| {
        DigitAtStops(l, rest, i + 2);
        DigitRunStops(l, rest, i + 2);
      }
    } else if rest != [] {
      assert (l + rest)[i] == rest[0];
    }
  }

  lemma NumberStops(l: Text, rest: Text)
    requires ValidNumber(l) && Delimited(rest)
    ensures NumberEnd(l + rest) == Some(|l|)
  {
    assert l != [] && (l + rest)[0] == l[0];
    var start := if l[0] == '-' as int then 1 else 0;
    DigitAtStops(l, rest, start);
    assert (l + rest)[start] == l[start];
    DigitRunStops(l, rest, start);
    var whole := if l[start] == '0' as int then start + 1 else DigitRun(l, start);
    FractionStops(l, rest, whole);
    ExponentStops(l, rest, FractionEnd(l, whole));
  }

  lemma ReadNumber(l: Text, rest: Text)
    requires ValidNumber(l) && Delimited(rest)
    ensures ParseValue(l + rest) == Some((JNumber(l), rest))
  {
    NumberStops(l, rest);
    assert l[0] == '-' as int || IsDigit(l[0]);
    var s := l + rest;
    assert s[0] == l[0] && SkipBlanks(s) == s;
    assert s[..|l|] == l && s[|l|..] == rest;
    assert NULL[0] == 'n' as int && TRUE[0] == 't' as int && FALSE[0] == 'f' as int;
    hide NumberEnd;
    NotLiteral(s, NULL);
    NotLiteral(s, TRUE);
    NotLiteral(s, FALSE);
  }

  lemma NotLiteral(s: Text, literal: Text)
    requires s != [] && literal != [] && s[0] != literal[0]
    ensures !StartsWith(s, literal)
  {
    assert |literal| <= |s| ==> s[..|literal|][0] == s[0];
  }

  lemma ReadLiteral(rest: Text)
    ensures ParseValue(NULL + rest) == Some((JNull, rest))
    ensures ParseValue(TRUE + rest) == Some((JBool(true), rest))
    ensures ParseValue(FALSE + rest) == Some((JBool(false), rest))
  {
    assert (NULL + rest)[..4] == NULL && (NULL + rest)[4..] == rest;
    assert (TRUE + rest)[..4] == TRUE && (TRUE + rest)[4..] == rest;
    assert (FALSE + rest)[..5] == FALSE && (FALSE + rest)[5..] == rest;
    assert NULL[0] == 'n' as int && TRUE[0] == 't' as int && FALSE[0] == 'f' as int;
    NotLiteral(TRUE + rest, NULL);
    NotLiteral(FALSE + rest, NULL);
    NotLiteral(FALSE + rest, TRUE);
  }

  lemma QuotedStart(text: Text, rest: Text)
    requires AllUnits(text)
    ensures var s := Quoted(text) + rest; s != [] && s[0] == QUOTE && s[1..] == Escape(text) + ([QUOTE] + rest)
  {
    var e := Escape(text);
    assert Quoted(text) == [QUOTE] + e + [QUOTE];
    hide *;
    Assoc([QUOTE] + e, [QUOTE], rest);
    Assoc([QUOTE], e, [QUOTE] + rest);
  }

  lemma ValueIsString(s: Text, text: Text, rest: Text)
    requires s != [] && s[0] == QUOTE && ParseChars(s[1..]) == Some((text, rest))
    ensures ParseValue(s) == Some((JString(text), rest))
  {
    hide ParseChars, NumberEnd, StartsWith, ParseMembers, ParseItems;
    assert SkipBlanks(s) == s;
    hide SkipBlanks;
  }

  lemma ReadString(text: Text, rest: Text)
    requires AllUnits(text)
    ensures ParseValue(Quoted(text) + rest) == Some((JString(text), rest))
  {
    CharsRoundTrip(text, rest);
    QuotedStart(text, rest);
    hide *;
    ValueIsString(Quoted(text) + rest, text, rest);
  }

  /** The printed value, whatever delimiter follows it, reads back as the value. */
  lemma {:induction false} ReadPrinted(v: Json, rest: Text)
    requires WellFormed(v) && Delimited(rest)
    ensures ParseValue(Stringify(v) + rest) == Some((v, rest))
    decreases v, 0
  {
    hide ParseValue, ParseMembers, ParseItems, ValidNumber;
    match v
    case JNumber(l) => ReadNumber(l, rest);
    case JString(text) => ReadString(text, rest);
    case JObject(members) => ReadObject(members, rest);
    case JArray(items) => ReadArray(items, rest);
    case _ => ReadLiteral(rest);
  }

  lemma {:induction false} ReadObject(members: Members, rest: Text)
    requires WellFormedMembers(members) && Delimited(rest)
    ensures ParseValue(Stringify(JObject(members)) + rest) == Some((JObject(members), rest))
    decreases members, 1
  {
    hide ParseValue, ParseMembers, Quoted;
    var body := MembersText(members) + ([CLOSE_BRACE] + rest);
    assert Stringify(JObject(members)) + rest == [OPEN_BRACE] + body;
    if members.NoMembers? {
      assert body == [CLOSE_BRACE] + rest;
      EmptyObject(rest);
    } else {
      MembersStart(members);
      assert body[0] == QUOTE;
      ReadMembers(members, rest);
      NonEmptyObject(body, members, rest);
    }
  }

  lemma EmptyObject(rest: Text)
    ensures ParseValue([OPEN_BRACE] + ([CLOSE_BRACE] + rest)) == Some((JObject(NoMembers), rest))
  {
    assert ([OPEN_BRACE] + ([CLOSE_BRACE] + rest))[1..] == [CLOSE_BRACE] + rest;
    assert ([CLOSE_BRACE] + rest)[1..] == rest;
  }

  lemma NonEmptyObject(body: Text, members: Members, rest: Text)
    requires body != [] && body[0] == QUOTE && ParseMembers(body) == Some((members, rest))
    ensures ParseValue([OPEN_BRACE] + body) == Some((JObject(members), rest))
  {
    hide ParseMembers;
    assert ([OPEN_BRACE] + body)[1..] == body;
  }

  lemma MembersStart(members: Members)
    requires WellFormedMembers(members) && members.Member?
    ensures MembersText(members) != [] && MembersText(members)[0] == QUOTE
  {
  }

  /** One step of reading members: the last one, or one with more after it. */
  lemma ReadMember(s: Text, name: Text, t: Text, value: Json, more: Text, others: Members, rest: Text)
    requires s != [] && s[0] == QUOTE && ParseChars(s[1..]) == Some((name, [COLON] + t))
    requires ParseValue(t) == Some((value, more)) && more != []
    requires if others.NoMembers? then more == [CLOSE_BRACE] + rest
             else more[0] == COMMA && more[1..] != [] && more[1..][0] == QUOTE && ParseMembers(more[1..]) == Some((others, rest))
    ensures ParseMembers(s) == Some((Member(name, value, others), rest))
  {
    hide ParseValue, ParseChars;
    assert ([COLON] + t)[1..] == t && SkipBlanks([COLON] + t) == [COLON] + t;
    assert SkipBlanks(more) == more;
    if others.NoMembers? { assert more[1..] == rest; }
    else { assert SkipBlanks(more[1..]) == more[1..]; }
  }

  /** What follows the value of the first member. */
  function AfterMember(others: Members, end: Text): Text
    requires WellFormedMembers(others)
  {
    if others.NoMembers? then end else [COMMA] + (MembersText(others) + end)
  }

  lemma MembersSplit(members: Members, end: Text)
    requires WellFormedMembers(members) && members.Member?
    ensures var s := MembersText(members) + end;
            var value := Stringify(members.value) + AfterMember(members.others, end);
            s != [] && s[0] == QUOTE && s[1..] == Escape(members.name) + ([QUOTE] + ([COLON] + value))
  {
    var name, value, others := Escape(members.name), Stringify(members.value), MembersText(members.others);
    var more := AfterMember(members.others, end);
    var s := MembersText(members);
    assert s == if members.others.Member? then [QUOTE] + name + [QUOTE] + [COLON] + value + [COMMA] + others
                else [QUOTE] + name + [QUOTE] + [COLON] + value;
    assert more == if members.others.Member? then [COMMA] + (others + end) else end;
    hide *;
    if members.others.Member? {
      Assoc([QUOTE] + name + [QUOTE] + [COLON] + value, [COMMA] + others, end);
      Assoc([COMMA], others, end);
      Assoc([QUOTE] + name + [QUOTE] + [COLON] + value, [COMMA], others);
    }
    assert s + end == [QUOTE] + name + [QUOTE] + [COLON] + value + more;
    Assoc([QUOTE] + name + [QUOTE] + [COLON], value, more);
    Assoc([QUOTE] + name + [QUOTE], [COLON], value + more);
    Assoc([QUOTE] + name, [QUOTE], [COLON] + (value + more));
    Assoc([QUOTE], name, [QUOTE] + ([COLON] + (value + more)));
  }

  lemma {:induction false} ReadMembers(members: Members, rest: Text)
    requires WellFormedMembers(members) && members.Member? && Delimited(rest)
    ensures ParseMembers(MembersText(members) + ([CLOSE_BRACE] + rest)) == Some((members, rest))
    decreases members, 0
  {
    hide ParseValue, ParseMembers, ParseChars, Escape, Stringify, MembersText, Quoted;
    var end := [CLOSE_BRACE] + rest;
    var more := AfterMember(members.others, end);
    var value := Stringify(members.value) + more;
    MembersSplit(members, end);
    CharsRoundTrip(members.name, [COLON] + value);
    ReadPrinted(members.value, more);
    if members.others.Member? {
      MembersStart(members.others);
      ReadMembers(members.others, rest);
      assert more[1..] == MembersText(members.others) + end;
    }
    ReadMember(MembersText(members) + end, members.name, value, members.value, more, members.others, rest);
  }

  lemma {:induction false} ReadArray(items: Items, rest: Text)
    requires WellFormedItems(items) && Delimited(rest)
    ensures ParseValue(Stringify(JArray(items)) + rest) == Some((JArray(items), rest))
    decreases items, 1
  {
    var s := Stringify(JArray(items)) + rest;
    var body := ItemsText(items) + ([CLOSE_BRACKET] + rest);
    assert s == [OPEN_BRACKET] + body;
    assert s[1..] == body && SkipBlanks(s) == s;
    if items.NoItems? {
      assert body == [CLOSE_BRACKET] + rest && body[1..] == rest;
    } else {
      ValueStart(items.head);
      assert body[0] == Stringify(items.head)[0] && SkipBlanks(body) == body;
      ReadItems(items, rest);
    }
    hide ParseMembers, ParseItems, Stringify, ItemsText;
  }

  lemma ValueStart(v: Json)
    requires WellFormed(v)
    ensures Stringify(v) != [] && !IsJsonBlank(Stringify(v)[0]) && Stringify(v)[0] != CLOSE_BRACKET
  {
    hide DigitRun;
  }

  lemma ReadItem(s: Text, value: Json, more: Text, others: Items, rest: Text)
    requires ParseValue(s) == Some((value, more)) && more != []
    requires if others.NoItems? then more == [CLOSE_BRACKET] + rest
             else more[0] == COMMA && ParseItems(more[1..]) == Some((others, rest))
    ensures ParseItems(s) == Some((Item(value, others), rest))
  {
    hide ParseValue;
    assert SkipBlanks(more) == more;
    if others.NoItems? { assert more[1..] == rest; }
  }

  lemma {:induction false} ReadItems(items: Items, rest: Text)
    requires WellFormedItems(items) && items.Item? && Delimited(rest)
    ensures ParseItems(ItemsText(items) + ([CLOSE_BRACKET] + rest)) == Some((items, rest))
    decreases items, 0
  {
    hide ParseValue, ParseItems;
    var end := [CLOSE_BRACKET] + rest;
    var next := ItemsText(items.rest) + end;
    var more := if items.rest.Item? then [COMMA] + next else end;
    var s := ItemsText(items) + end;
    assert s == Stringify(items.head) + more;
    ReadPrinted(items.head, more);
    if items.rest.Item? {
      assert more[1..] == next;
      ReadItems(items.rest, rest);
    }
    hide Stringify, ItemsText;
    ReadItem(s, items.head, more, items.rest, rest);
  }

  /** `JSON.parse(JSON.stringify(v))` gives `v` back. */
  lemma RoundTrip(v: Json)
    requires WellFormed(v)
    ensures Parse(Stringify(v)) == Some(v)
  {
    ReadPrinted(v, []);
    assert Stringify(v) + [] == Stringify(v);
  }
}
