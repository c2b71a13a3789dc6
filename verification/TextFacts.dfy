/** The text primitives, each against a description that does not follow its code. */
module TextFacts {
  import opened Wrappers
  import opened Utf16

  /** The white space of both platforms; U+0085 is blank only to .NET, U+FEFF only to ECMAScript. */
  lemma BlankUnits(p: Platform, u: int)
    ensures IsBlank(p, u) <==>
      u in {0x09, 0x0A, 0x0B, 0x0C, 0x0D, 0x20, 0xA0, 0x1680,
            0x2000, 0x2001, 0x2002, 0x2003, 0x2004, 0x2005, 0x2006, 0x2007, 0x2008, 0x2009, 0x200A,
            0x2028, 0x2029, 0x202F, 0x205F, 0x3000, if p.DotNet? then 0x85 else 0xFEFF}
  {
  }

  /** Trimming cuts away the longest blank beginning and end and nothing else. */
  lemma TrimCuts(p: Platform, s: Text)
    ensures exists i, n :: 0 <= i <= n <= |s| && Trim(p, s) == s[i..n] && AllBlank(p, s[..i]) && AllBlank(p, s[n..])
                             && (i < n ==> !IsBlank(p, s[i]) && !IsBlank(p, s[n - 1]))
  {
    var i := Front(p, s, 0);
    var n := Back(p, s, i, |s|);
    assert Trim(p, s) == s[i..n];
    assert forall k :: 0 <= k < |s[n..]| ==> s[n..][k] == s[n + k];
    if i < n { assert !IsBlank(p, s[i]); }
  }

  /** What the endpoints store for a text, and when they refuse it. */
  lemma CleanedIs(value: Option<Text>, max: nat)
    ensures var r := CleanText(value, max);
            && (r.Some? ==> value.Some? && r.value == Trim(DotNet, value.value))
            && (r.None? <==> value.None? || AllBlank(DotNet, value.value) || |Trim(DotNet, value.value)| > max
                             || exists k :: 0 <= k < |Trim(DotNet, value.value)| &&
                                  (0 <= Trim(DotNet, value.value)[k] <= 0x1F || 0x7F <= Trim(DotNet, value.value)[k] <= 0x9F))
  {
    if value.Some? { TrimEnds(DotNet, value.value); }
    hide Trim;
  }

  predicate AllHex(s: Text) {
    forall i :: 0 <= i < |s| ==>
      '0' as int <= s[i] <= '9' as int || 'a' as int <= s[i] <= 'f' as int || 'A' as int <= s[i] <= 'F' as int
  }

  predicate Groups(a: Text, b: Text, c: Text, d: Text, e: Text, maxVersion: int) {
    && |a| == 8 && |b| == 4 && |c| == 4 && |d| == 4 && |e| == 12
    && AllHex(a) && AllHex(b) && AllHex(c) && AllHex(d) && AllHex(e)
    && '1' as int <= c[0] <= '0' as int + maxVersion
    && d[0] in {'8' as int, '9' as int, 'a' as int, 'b' as int, 'A' as int, 'B' as int}
  }

  const DASH := ['-' as int]

  function Joined(a: Text, b: Text, c: Text, d: Text, e: Text): Text {
    a + DASH + b + DASH + c + DASH + d + DASH + e
  }

  /** An identifier is five groups of hexadecimal digits, with a version and a variant. */
  lemma UuidGroups(s: Text, maxVersion: int)
    ensures IsUuid(s, maxVersion) <==>
            exists a, b, c, d, e :: s == Joined(a, b, c, d, e) && Groups(a, b, c, d, e, maxVersion)
  {
    if IsUuid(s, maxVersion) {
      var a, b, c, d, e := s[..8], s[9..13], s[14..18], s[19..23], s[24..];
      assert s == Joined(a, b, c, d, e);
      assert Groups(a, b, c, d, e, maxVersion);
    }
    if a, b, c, d, e :| s == Joined(a, b, c, d, e) && Groups(a, b, c, d, e, maxVersion) {
      assert |s| == 36;
      forall i | 0 <= i < 36
        ensures if i == 8 || i == 13 || i == 18 || i == 23 then s[i] == '-' as int else IsHex(s[i])
      {
      }
    }
  }

  /** ASCII capitals become small letters and nothing else changes. */
  lemma LowerCased(s: Text)
    ensures |LowerCase(s)| == |s|
    ensures forall i :: 0 <= i < |s| ==>
              LowerCase(s)[i] == if 65 <= s[i] <= 90 then s[i] + 32 else s[i]
  {
  }
}
