/**
 Unicode text as scalar values, its UTF-8 bytes, and the percent-encoding of
 application/x-www-form-urlencoded (section 5 of the WHATWG URL Standard).
 */
module Utf8 {
  import opened Wrappers
  import opened Utf16

  /** A Unicode scalar value: any code point that is not a surrogate. */
  predicate IsScalar(c: int) {
    0 <= c < 0x110000 && !(0xD800 <= c < 0xE000)
  }

  predicate Scalars(s: seq<int>) {
    forall i :: 0 <= i < |s| ==> IsScalar(s[i])
  }

  /** How many UTF-16 units the text has: its ECMAScript `length`. */
  function Units(s: seq<int>): nat {
    if s == [] then 0 else (if s[0] < 0x10000 then 1 else 2) + Units(s[1..])
  }

  function Bytes(c: int): (b: seq<int>)
    requires IsScalar(c)
    ensures 1 <= |b| <= 4 && (c < 0x10000 ==> |b| <= 3)
    ensures forall i :: 0 <= i < |b| ==> 0 <= b[i] < 256
  {
    if c < 0x80 then [c]
    else if c < 0x800 then [0xC0 + c / 64, 0x80 + c % 64]
    else if c < 0x10000 then [0xE0 + c / 4096, 0x80 + c / 64 % 64, 0x80 + c % 64]
    else [0xF0 + c / 262144, 0x80 + c / 4096 % 64, 0x80 + c / 64 % 64, 0x80 + c % 64]
  }

  const REPLACEMENT := 0xFFFD

  /** The value the lead byte and its continuation bytes spell, if there are enough bytes. */
  function Spelled(b: seq<int>): (int, nat)
    requires b != []
  {
    if b[0] < 0xC0 then (b[0], 1)
    else if b[0] < 0xE0 && |b| >= 2 then ((b[0] - 0xC0) * 64 + (b[1] - 0x80), 2)
    else if 0xE0 <= b[0] < 0xF0 && |b| >= 3 then ((b[0] - 0xE0) * 4096 + (b[1] - 0x80) * 64 + (b[2] - 0x80), 3)
    else if 0xF0 <= b[0] && |b| >= 4 then
      ((b[0] - 0xF0) * 262144 + (b[1] - 0x80) * 4096 + (b[2] - 0x80) * 64 + (b[3] - 0x80), 4)
    else (REPLACEMENT, 1)
  }

  /** The first scalar value: bytes that are not its exact encoding give U+FFFD. */
  function First(b: seq<int>): (r: (int, nat))
    requires b != []
    ensures 1 <= r.1 <= |b|
  {
    var (c, k) := Spelled(b);
    if k <= |b| && IsScalar(c) && Bytes(c) == b[..k] then (c, k) else (REPLACEMENT, 1)
  }

  function Decode(b: seq<int>): seq<int> {
    if b == [] then [] else [First(b).0] + Decode(b[First(b).1..])
  }

  function Encoded(s: seq<int>): seq<int>
    requires Scalars(s)
  {
    if s == [] then [] else Bytes(s[0]) + Encoded(s[1..])
  }

  lemma SpelledShort(c: int, rest: seq<int>)
    requires 0 <= c < 0x800
    ensures Spelled(Bytes(c) + rest) == (c, |Bytes(c)|)
  {
  }

  lemma SpelledThree(c: int, rest: seq<int>)
    requires IsScalar(c) && 0x800 <= c < 0x10000
    ensures Spelled(Bytes(c) + rest) == (c, 3)
  {
    assert c / 64 == c / 4096 * 64 + c / 64 % 64;
  }

  lemma SpelledFour(c: int, rest: seq<int>)
    requires IsScalar(c) && 0x10000 <= c
    ensures Spelled(Bytes(c) + rest) == (c, 4)
  {
    assert c / 64 == c / 4096 * 64 + c / 64 % 64 && c / 4096 == c / 262144 * 64 + c / 4096 % 64;
  }

  lemma FirstOfBytes(c: int, rest: seq<int>)
    requires IsScalar(c)
    ensures First(Bytes(c) + rest) == (c, |Bytes(c)|)
  {
    if c < 0x800 { SpelledShort(c, rest); }
    else if c < 0x10000 { SpelledThree(c, rest); assert |Bytes(c)| == 3; }
    else { SpelledFour(c, rest); assert |Bytes(c)| == 4; }
    hide Spelled, Bytes;
    assert (Bytes(c) + rest)[..|Bytes(c)|] == Bytes(c);
  }

  lemma {:induction false} DecodeEncoded(s: seq<int>)
    requires Scalars(s)
    ensures Decode(Encoded(s)) == s
  {
    if s != [] {
      var rest := Encoded(s[1..]);
      DecodeEncoded(s[1..]);
      FirstOfBytes(s[0], rest);
      assert (Bytes(s[0]) + rest)[|Bytes(s[0])|..] == rest;
      hide Bytes, First;
    }
  }

  /** The code point a text begins with; a lone surrogate stands for itself. */
  function CodePoint(s: Text): int
    requires AllUnits(s) && s != []
  {
    if Paired(s) then 0x10000 + (s[0] - 0xD800) * 0x400 + (s[1] - 0xDC00) else s[0]
  }

  /** The scalar values a text is sent as: lone surrogates become U+FFFD. */
  function ToScalars(s: Text): (r: seq<int>)
    requires AllUnits(s)
    ensures Scalars(r)
  {
    if s == [] then []
    else if Paired(s) then [CodePoint(s)] + ToScalars(s[2..])
    else [if IsHigh(s[0]) || IsLow(s[0]) then REPLACEMENT else s[0]] + ToScalars(s[1..])
  }

  /** `utf8Size`: the clients' count over code points is the number of bytes sent. */
  method Utf8Size(s: Text) returns (bytes: nat)
    requires AllUnits(s)
    ensures bytes == |Encoded(ToScalars(s))|
  {
    bytes := 0;
    var i := 0;
    while i < |s|
      invariant 0 <= i <= |s|
      invariant bytes + |Encoded(ToScalars(s[i..]))| == |Encoded(ToScalars(s))|
    {
      var rest := s[i..];
      var n := CodePoint(rest);
      bytes := bytes + (if n <= 0x7F then 1 else if n <= 0x7FF then 2 else if n <= 0xFFFF then 3 else 4);
      var width := if n <= 0xFFFF then 1 else 2;
      i := i + width;
      assert rest[width..] == s[i..];
    }
  }

  /** Sending keeps the number of units, and takes at most three bytes for each. */
  lemma {:induction false} ScalarsBack(s: Text)
    requires AllUnits(s)
    ensures Units(ToScalars(s)) == |s|
    ensures |Encoded(ToScalars(s))| <= 3 * |s|
  {
    if s == [] {
    } else if Paired(s) {
      ScalarsBack(s[2..]);
    } else {
      ScalarsBack(s[1..]);
    }
    EncodedLength(ToScalars(s));
    hide Encoded;
  }

  // Form encoding.

  const PERCENT := '%' as int
  const PLUS := '+' as int

  predicate Unreserved(c: int) {
    || IsDigit(c) || 'a' as int <= c <= 'z' as int || 'A' as int <= c <= 'Z' as int
    || c == '*' as int || c == '-' as int || c == '.' as int || c == '_' as int
  }

  function FormByte(b: int): (r: Text)
    requires 0 <= b < 256
    ensures 1 <= |r| <= 3
  {
    if Unreserved(b) then [b]
    else if b == 0x20 then [PLUS]
    else [PERCENT, UpperHex(b / 16), UpperHex(b % 16)]
  }

  predicate AllBytes(b: seq<int>) {
    forall i :: 0 <= i < |b| ==> 0 <= b[i] < 256
  }

  function FormBytes(b: seq<int>): Text
    requires AllBytes(b)
  {
    if b == [] then [] else FormByte(b[0]) + FormBytes(b[1..])
  }

  /** Undoes the form encoding; what is not an escape stands for itself. */
  function FormDecode(t: Text): seq<int> {
    if t == [] then []
    else if t[0] == PERCENT && |t| >= 3 && IsHex(t[1]) && IsHex(t[2]) then
      [16 * HexValue(t[1]) + HexValue(t[2])] + FormDecode(t[3..])
    else [if t[0] == PLUS then 0x20 else t[0]] + FormDecode(t[1..])
  }

  lemma UpperHexValue(n: int)
    requires 0 <= n < 16
    ensures IsHex(UpperHex(n)) && HexValue(UpperHex(n)) == n
  {
  }

  lemma FormByteBack(b: int, rest: Text)
    requires 0 <= b < 256
    ensures FormDecode(FormByte(b) + rest) == [b] + FormDecode(rest)
  {
    var t := FormByte(b) + rest;
    assert t[|FormByte(b)|..] == rest;
    if |FormByte(b)| == 3 {
      UpperHexValue(b / 16);
      UpperHexValue(b % 16);
      hide UpperHex, HexValue, IsHex;
    }
  }

  lemma {:induction false} FormBack(b: seq<int>)
    requires AllBytes(b)
    ensures FormDecode(FormBytes(b)) == b
  {
    if b != [] {
      FormBack(b[1..]);
      FormByteBack(b[0], FormBytes(b[1..]));
      hide FormByte, FormDecode;
    }
  }

  /** A text's form encoding. */
  function FormText(s: seq<int>): Text
    requires Scalars(s)
  {
    EncodedBytes(s);
    FormBytes(Encoded(s))
  }

  lemma {:induction false} EncodedBytes(s: seq<int>)
    requires Scalars(s)
    ensures AllBytes(Encoded(s))
  {
    if s != [] {
      EncodedBytes(s[1..]);
      hide Bytes;
    }
  }

  lemma FormTextBack(s: seq<int>)
    requires Scalars(s)
    ensures Decode(FormDecode(FormText(s))) == s
  {
    EncodedBytes(s);
    FormBack(Encoded(s));
    DecodeEncoded(s);
  }

  /** The separators of a query never occur inside an encoded text. */
  predicate Clean(t: Text) {
    forall i :: 0 <= i < |t| ==> Unreserved(t[i]) || t[i] == PERCENT || t[i] == PLUS
  }

  lemma {:induction false} FormClean(b: seq<int>)
    requires AllBytes(b)
    ensures Clean(FormBytes(b)) && |FormBytes(b)| <= 3 * |b|
  {
    if b != [] { FormClean(b[1..]); }
  }

  lemma {:induction false} EncodedLength(s: seq<int>)
    requires Scalars(s)
    ensures |Encoded(s)| <= 3 * Units(s)
  {
    if s != [] {
      EncodedLength(s[1..]);
      hide Bytes;
    }
  }

  lemma FormTextShape(s: seq<int>)
    requires Scalars(s)
    ensures Clean(FormText(s)) && |FormText(s)| <= 9 * Units(s)
  {
    EncodedBytes(s);
    FormClean(Encoded(s));
    EncodedLength(s);
  }
}
