/**
 Text as .NET and ECMAScript both store it: a sequence of UTF-16 code units,
 each an integer. The two platforms disagree on which units are white space, and that difference
 is visible in the seller forms, so `Trim` takes the platform as an argument.
 */
module Utf16 {
  import opened Wrappers

  type Text = seq<int>

  /** UTF-16 code units, the elements of every ECMAScript string. */
  predicate AllUnits(s: Text) {
    forall i :: 0 <= i < |s| ==> 0 <= s[i] < 0x10000
  }

  predicate IsHigh(u: int) { 0xD800 <= u <= 0xDBFF }
  predicate IsLow(u: int) { 0xDC00 <= u <= 0xDFFF }

  /** The text begins with a surrogate pair: one code point in two units. */
  predicate Paired(s: Text) {
    |s| >= 2 && IsHigh(s[0]) && IsLow(s[1])
  }

  datatype Platform = DotNet | EcmaScript

  /** The code units of a literal. Only used on ASCII literals. */
  function Ascii(s: string): (r: Text)
    requires forall i :: 0 <= i < |s| ==> s[i] as int < 128
    ensures |r| == |s| && forall i :: 0 <= i < |s| ==> r[i] == s[i] as int
  {
    seq(|s|, i requires 0 <= i < |s| => s[i] as int)
  }

  /** `char.IsWhiteSpace` in .NET; WhiteSpace and LineTerminator in ECMA-262 section 12.2. */
  predicate IsBlank(p: Platform, u: int) {
    || 0x09 <= u <= 0x0D || u == 0x20 || u == 0xA0 || u == 0x1680
    || 0x2000 <= u <= 0x200A || u == 0x2028 || u == 0x2029
    || u == 0x202F || u == 0x205F || u == 0x3000
    || (p.DotNet? && u == 0x85)
    || (p.EcmaScript? && u == 0xFEFF)
  }

  /** `char.IsControl`: the Unicode category Cc. */
  predicate IsControl(u: int) {
    0 <= u < 0x20 || 0x7F <= u < 0xA0
  }

  predicate AllBlank(p: Platform, s: seq<int>) {
    forall i :: 0 <= i < |s| ==> IsBlank(p, s[i])
  }

  predicate NoControl(s: seq<int>) {
    forall i :: 0 <= i < |s| ==> !IsControl(s[i])
  }

  /** The first visible unit at or after `i`, or the end of the text. */
  function Front(p: Platform, s: Text, i: nat): (k: nat)
    requires i <= |s|
    ensures i <= k <= |s|
    ensures forall j :: i <= j < k ==> IsBlank(p, s[j])
    ensures k < |s| ==> !IsBlank(p, s[k])
    decreases |s| - i
  {
    if i < |s| && IsBlank(p, s[i]) then Front(p, s, i + 1) else i
  }

  /** One past the last visible unit in `s[i..k]`, or `i` when all of it is blank. */
  function Back(p: Platform, s: Text, i: nat, k: nat): (n: nat)
    requires i <= k <= |s|
    ensures i <= n <= k
    ensures forall j :: n <= j < k ==> IsBlank(p, s[j])
    ensures i < n ==> !IsBlank(p, s[n - 1])
  {
    if i < k && IsBlank(p, s[k - 1]) then Back(p, s, i, k - 1) else k
  }

  function Trim(p: Platform, s: Text): Text {
    var i := Front(p, s, 0);
    s[i..Back(p, s, i, |s|)]
  }

  /** Trimming drops exactly the blank ends: what is left starts and ends with a
      visible unit, and it is empty only when the whole text is blank. */
  lemma TrimEnds(p: Platform, s: Text)
    ensures |Trim(p, s)| <= |s|
    ensures Trim(p, s) == [] <==> AllBlank(p, s)
    ensures Trim(p, s) != [] ==> !IsBlank(p, Trim(p, s)[0]) && !IsBlank(p, Trim(p, s)[|Trim(p, s)| - 1])
    ensures NoControl(s) ==> NoControl(Trim(p, s))
  {
    var i := Front(p, s, 0);
    var n := Back(p, s, i, |s|);
    if i < |s| { assert !IsBlank(p, s[i]); }
  }

  /** A text whose two ends are visible is its own trim. */
  lemma TrimVisible(p: Platform, s: Text)
    requires s == [] || (!IsBlank(p, s[0]) && !IsBlank(p, s[|s| - 1]))
    ensures Trim(p, s) == s
  {
  }

  lemma TrimTwice(p: Platform, s: Text)
    ensures Trim(p, Trim(p, s)) == Trim(p, s)
  {
    TrimEnds(p, s);
    TrimVisible(p, Trim(p, s));
  }

  /**
   The cleaning rule every seller endpoint applies to free text: trim, then
   refuse empty text, text over the limit and text with a control character.
   */
  function CleanText(value: Option<Text>, max: nat): (r: Option<Text>)
    ensures r.Some? ==>
      && 1 <= |r.value| <= max && NoControl(r.value)
      && !IsBlank(DotNet, r.value[0]) && !IsBlank(DotNet, r.value[|r.value| - 1])
  {
    if value.None? then None
    else
      var cleaned := Trim(DotNet, value.value);
      if cleaned == [] || |cleaned| > max || !NoControl(cleaned) then None
      else
        TrimEnds(DotNet, value.value);
        Some(cleaned)
  }

  predicate IsDigit(u: int) { '0' as int <= u <= '9' as int }

  predicate AllDigits(s: seq<int>) {
    forall i :: 0 <= i < |s| ==> IsDigit(s[i])
  }

  predicate IsHex(u: int) {
    IsDigit(u) || 'a' as int <= u <= 'f' as int || 'A' as int <= u <= 'F' as int
  }

  function Lower(u: int): int {
    if 'A' as int <= u <= 'Z' as int then u + 32 else u
  }

  function HexValue(u: int): (r: int)
    requires IsHex(u)
    ensures 0 <= r < 16
  {
    if IsDigit(u) then u - '0' as int else Lower(u) - 'a' as int + 10
  }

  /** One upper-case hexadecimal digit. */
  function UpperHex(n: int): int {
    if n < 10 then '0' as int + n else 'A' as int + n - 10
  }

  const SLASH := '/' as int

  /** The first position from `i` on that holds one of the marks, or the end. */
  function IndexOf(s: seq<int>, marks: set<int>, i: nat): (k: nat)
    requires i <= |s|
    ensures i <= k <= |s| && (k < |s| ==> s[k] in marks)
    ensures forall j :: i <= j < k ==> s[j] !in marks
    decreases |s| - i
  {
    if i < |s| && s[i] !in marks then IndexOf(s, marks, i + 1) else i
  }

  function LowerCase(s: Text): (r: Text)
    ensures |r| == |s| && forall i :: 0 <= i < |s| ==> r[i] == Lower(s[i])
  {
    seq(|s|, i requires 0 <= i < |s| => Lower(s[i]))
  }

  lemma LowerCaseTwice(s: Text)
    ensures LowerCase(LowerCase(s)) == LowerCase(s)
  {
  }

  /**
   The identifier pattern of the clients: eight, four, four, four and twelve
   hexadecimal digits, a version digit between 1 and `maxVersion`, a variant
   digit 8, 9, a or b, in either letter case.
   */
  predicate IsUuid(s: seq<int>, maxVersion: int) {
    && |s| == 36
    && (forall i :: 0 <= i < 36 ==>
        if i == 8 || i == 13 || i == 18 || i == 23 then s[i] == '-' as int else IsHex(s[i]))
    && '1' as int <= s[14] <= '0' as int + maxVersion
    && (s[19] == '8' as int || s[19] == '9' as int
        || Lower(s[19]) == 'a' as int || Lower(s[19]) == 'b' as int)
  }

  lemma LowerCaseUuid(s: Text, maxVersion: int)
    requires IsUuid(s, maxVersion) && maxVersion <= 9
    ensures IsUuid(LowerCase(s), maxVersion)
  {
    var r := LowerCase(s);
    forall i | 0 <= i < 36
      ensures if i == 8 || i == 13 || i == 18 || i == 23 then r[i] == '-' as int else IsHex(r[i])
    {
      assert r[i] == Lower(s[i]);
    }
  }
}
