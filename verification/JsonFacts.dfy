/** How long printed JSON gets when it is printed again inside a string, and that the reader
    only ever produces values the printer accepts. */
module JsonFacts {
  import opened Wrappers
  import opened Utf16
  import opened Json

  /** Joining two texts can only shorten their escapes: a pair may form across the joint. */
  lemma {:induction false} EscapeConcat(a: Text, b: Text)
    requires AllUnits(a) && AllUnits(b)
    ensures |Escape(a + b)| <= |Escape(a)| + |Escape(b)|
  {
    hide EscapeUnit;
    if a == [] {
      assert a + b == b;
    } else if Paired(a) {
      assert (a + b)[2..] == a[2..] + b && (a + b)[..2] == a[..2];
      EscapeConcat(a[2..], b);
    } else if Paired(a + b) {
      assert |a| == 1 && (a + b)[2..] == b[1..];
      EscapeTail(b);
      LoneSurrogate(a[0]);
    } else {
      assert (a + b)[1..] == a[1..] + b && (a + b)[0] == a[0];
      EscapeConcat(a[1..], b);
    }
  }

  lemma EscapeTail(b: Text)
    requires AllUnits(b) && b != [] && IsLow(b[0])
    ensures |Escape(b)| == 6 + |Escape(b[1..])|
  {
    LoneSurrogate(b[0]);
    hide EscapeUnit;
    assert !Paired(b);
  }

  lemma LoneSurrogate(u: int)
    requires IsHigh(u) || IsLow(u)
    ensures |EscapeUnit(u)| == 6
  {
  }

  /** Visible ASCII without quotes and backslashes is printed as it is. */
  predicate Unescaped(t: Text) {
    forall i :: 0 <= i < |t| ==> 0x20 <= t[i] < 0x80 && t[i] != QUOTE && t[i] != BACKSLASH
  }

  lemma {:induction false} PlainEscape(t: Text)
    requires Unescaped(t)
    ensures Escape(t) == t
  {
    if t != [] {
      PlainEscape(t[1..]);
      assert EscapeUnit(t[0]) == [t[0]] && t == [t[0]] + t[1..];
    }
  }

  lemma QuoteEscape(u: int)
    requires u == QUOTE || u == BACKSLASH
    ensures |Escape([u])| == 2
  {
    assert [u][1..] == [];
  }

  /** The escape of one unit, escaped again. */
  lemma UnitTwice(u: int)
    requires 0 <= u < 0x10000
    ensures |Escape(EscapeUnit(u))| <= 7
  {
    var e := EscapeUnit(u);
    if |e| > 1 {
      assert e == [BACKSLASH] + e[1..];
      QuoteEscape(BACKSLASH);
      EscapeConcat([BACKSLASH], e[1..]);
      if u == QUOTE || u == BACKSLASH {
        assert e[1..] == [u];
        QuoteEscape(u);
      } else {
        assert Unescaped(e[1..]);
        PlainEscape(e[1..]);
      }
    }
  }

  lemma PairTwice(p: Text)
    requires AllUnits(p) && Paired(p) && |p| == 2
    ensures |Escape(p)| == 2
  {
    assert p[2..] == [] && p[..2] == p;
  }

  /** Text escaped twice is at most seven times as long. */
  lemma {:induction false} EscapeTwice(t: Text)
    requires AllUnits(t)
    ensures |Escape(Escape(t))| <= 7 * |t|
  {
    hide EscapeUnit;
    if t == [] {
    } else if Paired(t) {
      var first, tail := t[..2], Escape(t[2..]);
      assert Escape(t) == first + tail;
      EscapeTwice(t[2..]);
      hide Escape;
      PairTwice(first);
      EscapeConcat(first, tail);
    } else {
      var first, tail := EscapeUnit(t[0]), Escape(t[1..]);
      assert Escape(t) == first + tail;
      EscapeTwice(t[1..]);
      hide Escape;
      UnitTwice(t[0]);
      EscapeConcat(first, tail);
    }
  }

  /** A bound on the length a printed value has inside a printed string. */
  function Cost(v: Json): nat {
    match v
    case JNull => 4
    case JBool(_) => 5
    case JNumber(lexeme) => |lexeme|
    case JString(text) => 7 * |text| + 4
    case JArray(items) => 2 + ItemsCost(items)
    case JObject(members) => 2 + MembersCost(members)
  }

  function ItemsCost(items: Items): nat {
    if items.NoItems? then 0 else Cost(items.head) + 1 + ItemsCost(items.rest)
  }

  function MembersCost(members: Members): nat {
    if members.NoMembers? then 0
    else 7 * |members.name| + 4 + 1 + Cost(members.value) + 1 + MembersCost(members.others)
  }

  lemma QuotedCost(text: Text)
    requires AllUnits(text)
    ensures |Escape(Quoted(text))| <= 7 * |text| + 4
  {
    EscapeTwice(text);
    QuoteEscape(QUOTE);
    EscapeConcat([QUOTE] + Escape(text), [QUOTE]);
    EscapeConcat([QUOTE], Escape(text));
  }

  lemma NumberPlain(lexeme: Text)
    requires ValidNumber(lexeme)
    ensures Unescaped(lexeme)
  {
    var start := if lexeme[0] == '-' as int then 1 else 0;
    var whole := if lexeme[start] == '0' as int then start + 1 else DigitRun(lexeme, start);
    RunOfDigits(lexeme, start);
    if whole < |lexeme| { RunOfDigits(lexeme, whole + 1); }
    var fraction := FractionEnd(lexeme, whole);
    if fraction < |lexeme| {
      var sign := if fraction + 1 < |lexeme| && (lexeme[fraction + 1] == '+' as int || lexeme[fraction + 1] == '-' as int)
                  then fraction + 2 else fraction + 1;
      if sign <= |lexeme| { RunOfDigits(lexeme, sign); }
    }
  }

  lemma {:induction false} RunOfDigits(s: Text, i: nat)
    requires i <= |s|
    ensures forall k :: i <= k < DigitRun(s, i) ==> IsDigit(s[k])
    decreases |s| - i
  {
    if i < |s| && IsDigit(s[i]) { RunOfDigits(s, i + 1); }
  }

  lemma Joined(a: Text, b: Text, m: nat, n: nat)
    requires AllUnits(a) && AllUnits(b) && |Escape(a)| <= m && |Escape(b)| <= n
    ensures AllUnits(a + b) && |Escape(a + b)| <= m + n
  {
    EscapeConcat(a, b);
  }

  lemma Bracketed(open: int, text: Text, close: int, n: nat)
    requires open == OPEN_BRACKET || open == OPEN_BRACE
    requires close == CLOSE_BRACKET || close == CLOSE_BRACE
    requires AllUnits(text) && |Escape(text)| <= n
    ensures AllUnits([open] + text + [close]) && |Escape([open] + text + [close])| <= n + 2
  {
    Mark(open);
    Mark(close);
    hide *;
    Joined([open], text, 1, n);
    Joined([open] + text, [close], 1 + n, 1);
  }

  lemma {:induction false} PrintedCost(v: Json)
    requires WellFormed(v)
    ensures |Escape(Stringify(v))| <= Cost(v)
  {
    hide Escape, ItemsText, MembersText, NumberEnd;
    match v
    case JNumber(lexeme) => NumberPlain(lexeme); PlainEscape(lexeme);
    case JString(text) => QuotedCost(text);
    case JArray(items) => ItemsCosts(items); Bracketed(OPEN_BRACKET, ItemsText(items), CLOSE_BRACKET, ItemsCost(items));
    case JObject(members) => MembersCosts(members); Bracketed(OPEN_BRACE, MembersText(members), CLOSE_BRACE, MembersCost(members));
    case _ => PlainEscape(NULL); PlainEscape(TRUE); PlainEscape(FALSE);
  }

  lemma Mark(u: int)
    requires u == OPEN_BRACKET || u == CLOSE_BRACKET || u == OPEN_BRACE || u == CLOSE_BRACE || u == COMMA || u == COLON
    ensures AllUnits([u]) && |Escape([u])| == 1
  {
    PlainEscape([u]);
  }

  lemma {:induction false} ItemsCosts(items: Items)
    requires WellFormedItems(items)
    ensures |Escape(ItemsText(items))| <= ItemsCost(items)
  {
    if items.Item? {
      PrintedCost(items.head);
      if items.rest.Item? {
        ItemsCosts(items.rest);
        hide Escape;
        Mark(COMMA);
        Joined(Stringify(items.head), [COMMA], Cost(items.head), 1);
        Joined(Stringify(items.head) + [COMMA], ItemsText(items.rest), Cost(items.head) + 1, ItemsCost(items.rest));
      }
    }
  }

  lemma {:induction false} MembersCosts(members: Members)
    requires WellFormedMembers(members)
    ensures |Escape(MembersText(members))| <= MembersCost(members)
  {
    if members.Member? {
      var name, value := Quoted(members.name), Stringify(members.value);
      QuotedCost(members.name);
      PrintedCost(members.value);
      var n, c, rest := 7 * |members.name| + 4, Cost(members.value), MembersCost(members.others);
      if members.others.NoMembers? {
        assert MembersText(members) == name + [COLON] + value;
        hide *;
        OneMember(name, value, n, c);
      } else {
        var others := MembersText(members.others);
        MembersCosts(members.others);
        assert MembersText(members) == name + [COLON] + value + [COMMA] + others;
        hide *;
        OneMember(name, value, n, c);
        Mark(COMMA);
        Joined(name + [COLON] + value, [COMMA], n + 1 + c, 1);
        Joined(name + [COLON] + value + [COMMA], others, n + 1 + c + 1, rest);
      }
    }
  }

  lemma OneMember(name: Text, value: Text, n: nat, c: nat)
    requires AllUnits(name) && AllUnits(value) && |Escape(name)| <= n && |Escape(value)| <= c
    ensures AllUnits(name + [COLON] + value) && |Escape(name + [COLON] + value)| <= n + 1 + c
  {
    hide Escape;
    Mark(COLON);
    Joined(name, [COLON], n, 1);
    Joined(name + [COLON], value, n + 1, c);
  }

  // What is read can be printed.

  lemma {:induction false} CharsAreUnits(s: Text)
    requires AllUnits(s) && ParseChars(s).Some?
    ensures AllUnits(ParseChars(s).value.0) && AllUnits(ParseChars(s).value.1)
  {
    hide HexValue, IsHex;
    if s[0] == QUOTE {
    } else if s[0] != BACKSLASH {
      CharsAreUnits(s[1..]);
    } else if |s| >= 6 && s[1] == 'u' as int && IsHex(s[2]) && IsHex(s[3]) && IsHex(s[4]) && IsHex(s[5]) {
      CharsAreUnits(s[6..]);
    } else {
      CharsAreUnits(s[2..]);
    }
  }

  lemma {:induction false} DigitRunCut(s: Text, i: nat, e: nat)
    requires i <= e <= |s| && DigitRun(s, i) <= e
    ensures DigitRun(s[..e], i) == DigitRun(s, i)
    decreases |s| - i
  {
    if i < e && IsDigit(s[i]) { DigitRunCut(s, i + 1, e); }
  }

  lemma {:induction false} DigitRunEnds(s: Text, i: nat)
    requires DigitAt(s, i)
    ensures i < DigitRun(s, i)
  {
  }

  /** The longest number at the start of a text is a number by itself. */
  lemma NumberCut(s: Text)
    requires NumberEnd(s).Some?
    ensures var e := NumberEnd(s).value; NumberEnd(s[..e]) == Some(e)
  {
    var e := NumberEnd(s).value;
    var t := s[..e];
    var start := if s[0] == '-' as int then 1 else 0;
    var whole := if s[start] == '0' as int then start + 1 else DigitRun(s, start);
    var fraction := FractionEnd(s, whole);
    DigitRunEnds(s, start);
    if s[start] != '0' as int { DigitRunCut(s, start, e); }
    FractionCut(s, whole, e);
    ExponentCut(s, fraction, e);
  }

  lemma FractionCut(s: Text, i: nat, e: nat)
    requires i <= e <= |s| && FractionEnd(s, i) <= e
    ensures FractionEnd(s[..e], i) == FractionEnd(s, i)
  {
    if i < |s| && s[i] == '.' as int && DigitAt(s, i + 1) {
      DigitRunEnds(s, i + 1);
      DigitRunCut(s, i + 1, e);
    }
  }

  lemma ExponentCut(s: Text, i: nat, e: nat)
    requires i <= |s| && e == ExponentEnd(s, i)
    ensures ExponentEnd(s[..e], i) == e
  {
    if e > i {
      var sign := if i + 1 < |s| && (s[i + 1] == '+' as int || s[i + 1] == '-' as int) then i + 2 else i + 1;
      DigitRunEnds(s, sign);
      DigitRunCut(s, sign, e);
    }
  }

  lemma SkipUnits(s: Text)
    requires AllUnits(s)
    ensures AllUnits(SkipBlanks(s))
  {
  }

  lemma {:induction false} ValueIsWellFormed(s: Text)
    requires AllUnits(s) && ParseValue(s).Some?
    ensures WellFormed(ParseValue(s).value.0) && AllUnits(ParseValue(s).value.1)
    decreases |s|, 1
  {
    SkipUnits(s);
    var t := SkipBlanks(s);
    hide NumberEnd, ParseChars, ParseMembers, ParseItems, StartsWith, SkipBlanks, WellFormedItems, WellFormedMembers;
    if t[0] == QUOTE {
      CharsAreUnits(t[1..]);
    } else if t[0] == OPEN_BRACE {
      SkipUnits(t[1..]);
      var u := SkipBlanks(t[1..]);
      if u == [] || u[0] != CLOSE_BRACE { MembersAreWellFormed(u); }
    } else if t[0] == OPEN_BRACKET {
      SkipUnits(t[1..]);
      var u := SkipBlanks(t[1..]);
      if u == [] || u[0] != CLOSE_BRACKET { ItemsAreWellFormed(u); }
    } else if !StartsWith(t, NULL) && !StartsWith(t, TRUE) && !StartsWith(t, FALSE) {
      NumberCut(t);
    }
  }

  lemma {:induction false} MembersAreWellFormed(s: Text)
    requires AllUnits(s) && ParseMembers(s).Some?
    ensures WellFormedMembers(ParseMembers(s).value.0) && AllUnits(ParseMembers(s).value.1)
    decreases |s|, 2
  {
    hide ParseValue, ParseChars;
    CharsAreUnits(s[1..]);
    var colon := SkipBlanks(ParseChars(s[1..]).value.1);
    SkipUnits(ParseChars(s[1..]).value.1);
    ValueIsWellFormed(colon[1..]);
    var value := ParseValue(colon[1..]).value;
    SkipUnits(value.1);
    var next := SkipBlanks(value.1);
    if next[0] != CLOSE_BRACE {
      SkipUnits(next[1..]);
      MembersAreWellFormed(SkipBlanks(next[1..]));
    }
    hide WellFormed;
  }

  lemma {:induction false} ItemsAreWellFormed(s: Text)
    requires AllUnits(s) && ParseItems(s).Some?
    ensures WellFormedItems(ParseItems(s).value.0) && AllUnits(ParseItems(s).value.1)
    decreases |s|, 2
  {
    hide ParseValue;
    ValueIsWellFormed(s);
    var value := ParseValue(s).value;
    SkipUnits(value.1);
    var next := SkipBlanks(value.1);
    if next[0] != CLOSE_BRACKET { ItemsAreWellFormed(next[1..]); }
    hide WellFormed;
  }

  /** Whatever `JSON.parse` accepts, `JSON.stringify` prints, and that text reads back the same. */
  lemma ParsedIsWellFormed(s: Text)
    requires AllUnits(s) && Parse(s).Some?
    ensures WellFormed(Parse(s).value) && Parse(Stringify(Parse(s).value)) == Parse(s)
  {
    ValueIsWellFormed(s);
    RoundTrip(Parse(s).value);
  }
}
