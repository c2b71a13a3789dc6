/**
 What the app makes of any link text, whoever wrote it: which texts are routes, to which
 route each part of the text leads, and that a route read from a text is in normal form.
 */
module LinkFacts {
  import opened Wrappers
  import opened Utf16
  import opened Utf8
  import opened Decimal
  import opened BrowseController
  import opened DeepLink

  // The query.

  /** `a&b&c`. */
  function Joined(pieces: seq<seq<int>>): seq<int> {
    if pieces == [] then []
    else if |pieces| == 1 then pieces[0]
    else pieces[0] + ['&' as int] + Joined(pieces[1..])
  }

  function Pairs(pieces: seq<seq<int>>): seq<Param> {
    if pieces == [] then [] else (if pieces[0] == [] then [] else [PairOf(pieces[0])]) + Pairs(pieces[1..])
  }

  lemma FirstPiece(p: seq<int>, rest: seq<int>)
    requires '&' as int !in p
    ensures ParseQuery(p) == if p == [] then [] else [PairOf(p)]
    ensures ParseQuery(p + ['&' as int] + rest) == (if p == [] then [] else [PairOf(p)]) + ParseQuery(rest)
  {
    if p == [] {
      assert p + [AMPERSAND] + rest == [AMPERSAND] + rest && ([AMPERSAND] + rest)[1..] == rest;
    } else {
      LastPair(p);
      MorePairs(p, rest);
    }
    hide PairOf;
  }

  /** The parameters of a query are the pieces between its ampersands; empty pieces are skipped. */
  lemma {:induction false} QueryPieces(pieces: seq<seq<int>>)
    requires forall p :: p in pieces ==> '&' as int !in p
    ensures ParseQuery(Joined(pieces)) == Pairs(pieces)
  {
    hide ParseQuery, PairOf;
    if pieces == [] {
      EmptyQuery();
    } else {
      assert forall p :: p in pieces[1..] ==> p in pieces;
      assert pieces[0] in pieces;
      QueryPieces(pieces[1..]);
      FirstPiece(pieces[0], Joined(pieces[1..]));
    }
  }

  /** A piece is cut at its first equals sign, and without one the value is empty. */
  lemma PairMeans(n: seq<int>, v: seq<int>)
    requires '=' as int !in n
    ensures PairOf(n + ['=' as int] + v) == Param(Decode(FormDecode(n)), Decode(FormDecode(v)))
    ensures PairOf(n) == Param(Decode(FormDecode(n)), [])
  {
    PairFrom(n, v);
    IndexAt(n, {EQUALS}, 0, |n|);
    assert n[..|n|] == n;
    hide Decode, FormDecode, IndexOf;
  }

  /** A plus sign is a space, a percent sign with two hexadecimal digits a byte, and everything
      else, a lone percent sign too, stands for itself. */
  lemma Unescaped(u: int, v: int, t: Text)
    ensures FormDecode(['+' as int] + t) == [0x20] + FormDecode(t)
    ensures IsHex(u) && IsHex(v) ==>
              FormDecode(['%' as int, u, v] + t) == [16 * HexDigit(u) + HexDigit(v)] + FormDecode(t)
    ensures u != '%' as int && u != '+' as int ==> FormDecode([u] + t) == [u] + FormDecode(t)
    ensures |t| < 2 || !IsHex(t[0]) || !IsHex(t[1]) ==> FormDecode(['%' as int] + t) == ['%' as int] + FormDecode(t)
  {
    OneUnit(u, t);
    OneUnit('+' as int, t);
    OneUnit('%' as int, t);
    if IsHex(u) && IsHex(v) { Escaped(u, v, t); }
    hide FormDecode, IsHex, HexValue;
  }

  lemma OneUnit(u: int, t: Text)
    ensures var s := [u] + t;
            u != '%' as int || |t| < 2 || !IsHex(t[0]) || !IsHex(t[1]) ==>
              FormDecode(s) == [if u == '+' as int then 0x20 else u] + FormDecode(t)
  {
    hide IsHex, HexValue;
    var s := [u] + t;
    assert s[1..] == t && s[0] == u;
    assert |t| >= 2 ==> s[1] == t[0] && s[2] == t[1];
  }

  lemma Escaped(u: int, v: int, t: Text)
    requires IsHex(u) && IsHex(v)
    ensures FormDecode(['%' as int, u, v] + t) == [16 * HexDigit(u) + HexDigit(v)] + FormDecode(t)
  {
    var s := ['%' as int, u, v] + t;
    assert HexValue(u) == HexDigit(u) && HexValue(v) == HexDigit(v);
    hide IsHex, HexValue, HexDigit;
    assert s[0] == PERCENT && s[1] == u && s[2] == v && |s| >= 3 && s[3..] == t;
  }

  function HexDigit(u: int): int
    requires IsHex(u)
  {
    if u <= 57 then u - 48 else if u <= 70 then u - 55 else u - 87
  }

  // Parameters.

  predicate Twice(params: seq<Param>, name: seq<int>) {
    exists i, j :: 0 <= i < j < |params| && params[i].name == name && params[j].name == name
  }

  predicate Named(params: seq<Param>, name: seq<int>) {
    exists i :: 0 <= i < |params| && params[i].name == name
  }

  lemma {:induction false} NamedOccurs(params: seq<Param>, name: seq<int>)
    ensures Occurrences(params, name) >= 1 <==> Named(params, name)
    ensures Get(params, name).Some? <==> Named(params, name)
    ensures Get(params, name).Some? ==> Param(name, Get(params, name).value) in params
  {
    if params != [] {
      NamedOccurs(params[1..], name);
      if Named(params, name) && params[0].name != name {
        var i :| 0 <= i < |params| && params[i].name == name;
        assert params[1..][i - 1].name == name;
      }
      if Named(params[1..], name) {
        var i :| 0 <= i < |params[1..]| && params[1..][i].name == name;
        assert params[i + 1].name == name;
      }
    }
  }

  lemma {:induction false} TwiceOccurs(params: seq<Param>, name: seq<int>)
    ensures Occurrences(params, name) > 1 <==> Twice(params, name)
  {
    if params != [] {
      TwiceOccurs(params[1..], name);
      NamedOccurs(params[1..], name);
      if Twice(params, name) {
        var i, j :| 0 <= i < j < |params| && params[i].name == name && params[j].name == name;
        assert params[1..][j - 1].name == name;
        if i > 0 { assert params[1..][i - 1].name == name; }
      }
      if Twice(params[1..], name) {
        var i, j :| 0 <= i < j < |params[1..]| && params[1..][i].name == name && params[1..][j].name == name;
        assert params[i + 1].name == name && params[j + 1].name == name;
      }
      if params[0].name == name && Named(params[1..], name) {
        var j :| 0 <= j < |params[1..]| && params[1..][j].name == name;
        assert params[j + 1].name == name;
      }
      hide Twice, Named;
    }
  }

  lemma OnlyValue(params: seq<Param>, name: seq<int>, value: seq<int>)
    requires !Twice(params, name) && Param(name, value) in params
    ensures Get(params, name) == Some(value)
  {
    NamedOccurs(params, name);
    var k :| 0 <= k < |params| && params[k] == Param(name, value);
    assert Named(params, name);
    var m :| 0 <= m < |params| && params[m] == Param(name, Get(params, name).value);
    assert m == k;
  }

  /** The three fields are read from the parameters of these names. */
  ghost predicate Reads(params: seq<Param>, b: Location) {
    && (forall v :: Param(Ascii("categoryId"), v) in params ==>
          b.categoryId == if IsUuid(v, 8) then Some(LowerCase(v)) else None)
    && (!Named(params, Ascii("categoryId")) ==> b.categoryId == None)
    && (forall v :: Param(Ascii("search"), v) in params ==>
          b.search == if Searchable(v) then Trim(EcmaScript, v) else [])
    && (!Named(params, Ascii("search")) ==> b.search == [])
    && (forall v :: Param(Ascii("page"), v) in params ==>
          && (forall n: nat :: 1 <= n <= 10000 && v == Digits(n) ==> b.page == n)
          && ((forall n: nat :: 1 <= n <= 10000 ==> v != Digits(n)) ==> b.page == 1))
    && (!Named(params, Ascii("page")) ==> b.page == 1)
  }

  /** At most eighty units once trimmed, and no ASCII control character anywhere. */
  predicate Searchable(v: seq<int>) {
    Utf8.Units(Trim(EcmaScript, v)) <= 80 && forall i :: 0 <= i < |v| ==> !(0 <= v[i] <= 31) && v[i] != 127
  }

  lemma {:induction false} DigitsOfValue(s: Text)
    requires s != [] && AllDigits(s) && s[0] != '0' as int
    ensures Value(s) >= 1 && Digits(Value(s)) == s
  {
    var front, last := s[..|s| - 1], s[|s| - 1] - '0' as int;
    if front == [] {
      assert Value(front) == 0;
    } else {
      DigitsOfValue(front);
      assert Value(s) == 10 * Value(front) + last && Value(s) / 10 == Value(front);
    }
  }

  /** The page is read from the canonical decimal texts of 1 to 10000; any other is page 1. */
  lemma PageMeans(raw: seq<int>)
    ensures forall n: nat :: 1 <= n <= 10000 && raw == Digits(n) ==> PageOf(raw) == n
    ensures (forall n: nat :: 1 <= n <= 10000 ==> raw != Digits(n)) ==> PageOf(raw) == 1
  {
    forall n: nat | 1 <= n <= 10000 && raw == Digits(n) ensures PageOf(raw) == n { PageBack(n); }
    if raw != [] && AllDigits(raw) && raw[0] != '0' as int { DigitsOfValue(raw); }
    hide Digits;
  }

  lemma FieldsRead(params: seq<Param>)
    requires !Repeated(params)
    ensures Reads(params, BrowseFromParams(params))
  {
    TwiceOccurs(params, CATEGORY);
    TwiceOccurs(params, SEARCH);
    TwiceOccurs(params, PAGE);
    NamedOccurs(params, CATEGORY);
    NamedOccurs(params, SEARCH);
    NamedOccurs(params, PAGE);
    hide Ascii, Get, Occurrences, Twice, Named, Trim, Utf8.Units, IsUuid, LowerCase, Digits, PageOf;
    assert PageOf([]) == 1 by { NoPage(); }
    assert Trim(EcmaScript, []) == [] by { EmptyText(); }
    var b := BrowseFromParams(params);
    forall v | Param(CATEGORY, v) in params ensures b.categoryId == if IsUuid(v, 8) then Some(LowerCase(v)) else None {
      OnlyValue(params, CATEGORY, v);
    }
    forall v | Param(SEARCH, v) in params ensures b.search == if Searchable(v) then Trim(EcmaScript, v) else [] {
      OnlyValue(params, SEARCH, v);
    }
    forall v | Param(PAGE, v) in params
      ensures forall n: nat :: 1 <= n <= 10000 && v == Digits(n) ==> b.page == n
      ensures (forall n: nat :: 1 <= n <= 10000 ==> v != Digits(n)) ==> b.page == 1
    {
      OnlyValue(params, PAGE, v);
      PageMeans(v);
    }
  }

  lemma NoPage()
    ensures PageOf([]) == 1
  {
  }

  // Any text at all.

  predicate Without(s: seq<int>, marks: seq<int>) {
    forall m :: m in marks ==> m !in s
  }

  /** The parts of a link as they are written: `user` with its `@`, `port` with its colon,
      `query` with its question mark and `fragment` with its number sign; any may be empty. */
  datatype Written = Written(scheme: seq<int>, user: seq<int>, host: seq<int>, port: seq<int>,
                             path: seq<int>, query: seq<int>, fragment: seq<int>)

  predicate WellWritten(w: Written) {
    && LowerCase(w.scheme) == Ascii("hana://")
    && (w.user != [] ==> w.user[|w.user| - 1] == '@' as int) && Without(w.user, Ascii("/?#"))
    && w.host != [] && Without(w.host, Ascii("/?#@:"))
    && (w.port != [] ==> w.port[0] == ':' as int) && Without(w.port, Ascii("/?#@"))
    && (w.path != [] ==> w.path[0] == '/' as int) && Without(w.path, Ascii("?#"))
    && (w.query != [] ==> w.query[0] == '?' as int) && Without(w.query, Ascii("#"))
    && (w.fragment != [] ==> w.fragment[0] == '#' as int)
  }

  function Rest(w: Written): seq<int> {
    (w.user + w.host + w.port) + w.path + w.query + w.fragment
  }

  function Link(w: Written): seq<int> { w.scheme + Rest(w) }

  function Asks(w: Written): seq<Param> {
    ParseQuery(if w.query == [] then [] else w.query[1..])
  }

  predicate NothingTwice(params: seq<Param>) {
    !Twice(params, Ascii("categoryId")) && !Twice(params, Ascii("search")) && !Twice(params, Ascii("page"))
  }

  /** Nothing but the marks of an empty user, password, port or fragment is tolerated. */
  predicate Bare(w: Written) {
    w.user in {[], Ascii("@"), Ascii(":@")} && w.port in {[], Ascii(":")} && |w.fragment| <= 1
  }

  function Tail(s: seq<int>): seq<int> { if s == [] then [] else s[1..] }

  lemma Authority(w: Written)
    requires WellWritten(w)
    ensures var a := w.user + w.host + w.port;
            && Without(a, Ascii("/?#"))
            && HostIn(a) == if w.user in {[], Ascii("@"), Ascii(":@")} && w.port in {[], Ascii(":")} then Some(w.host) else None
  {
    var a := w.user + w.host + w.port;
    assert Ascii("/?#") == [SLASH, QUESTION, HASH] && Ascii("/?#@:") == [SLASH, QUESTION, HASH, AT, COLON];
    assert Ascii("/?#@") == [SLASH, QUESTION, HASH, AT];
    assert Ascii("@") == [AT] && Ascii(":") == [COLON] && Ascii(":@") == [COLON, AT];
    hide Ascii, HostIn;
    AuthorityForms(w.user, w.host, w.port);
  }

  predicate Avoids(s: seq<int>, marks: set<int>) {
    forall x :: x in s ==> x !in marks
  }

  lemma WrittenMarks(s: seq<int>, a: seq<int>, path: seq<int>, query: seq<int>, fragment: seq<int>)
    requires Avoids(a, {SLASH, QUESTION, HASH}) && Avoids(path, {QUESTION, HASH}) && Avoids(query, {HASH})
    requires (path != [] ==> path[0] == SLASH) && (query != [] ==> query[0] == QUESTION)
    requires (fragment != [] ==> fragment[0] == HASH) && s == a + path + query + fragment
    ensures |s| == |a| + |path| + |query| + |fragment|
    ensures IndexOf(s, {SLASH, QUESTION, HASH}, 0) == |a|
    ensures IndexOf(s, {QUESTION, HASH}, |a|) == |a| + |path|
    ensures IndexOf(s, {HASH}, |a| + |path|) == |a| + |path| + |query|
  {
    Reassociate(a, path, query, fragment);
    hide IndexOf;
    MarkAfter([], a, path + query + fragment, {SLASH, QUESTION, HASH});
    MarkAfter(a, path, query + fragment, {QUESTION, HASH});
    MarkAfter(a + path, query, fragment, {HASH});
  }

  lemma Reassociate(a: seq<int>, b: seq<int>, c: seq<int>, d: seq<int>)
    ensures [] + a + (b + c + d) == a + b + c + d && a + b + (c + d) == a + b + c + d
    ensures b + c + d != [] ==> (b + c + d)[0] == if b != [] then b[0] else if c != [] then c[0] else d[0]
    ensures c + d != [] ==> (c + d)[0] == if c != [] then c[0] else d[0]
  {
  }

  lemma CutFour(s: seq<int>, a: seq<int>, b: seq<int>, c: seq<int>, d: seq<int>)
    requires s == a + b + c + d
    ensures var h, p, q := |a|, |a| + |b|, |a| + |b| + |c|;
            && h <= p <= q <= |s| && s[..h] == a && s[h..p] == b
            && (if p < q then s[p + 1..q] else []) == Tail(c) && (if q < |s| then s[q + 1..] else []) == Tail(d)
  {
  }

  lemma PartsWritten(w: Written)
    requires WellWritten(w)
    ensures Parts(Rest(w)) ==
            if w.user in {[], Ascii("@"), Ascii(":@")} && w.port in {[], Ascii(":")}
            then Some(Url(w.host, w.path, Tail(w.query), Tail(w.fragment))) else None
  {
    Authority(w);
    Avoiding(w);
    var a := w.user + w.host + w.port;
    PartsFrom(a, w.path, w.query, w.fragment);
    hide Ascii, HostIn, IndexOf, Without, Avoids, Tail, Parts;
  }

  lemma Avoiding(w: Written)
    requires WellWritten(w) && Without(w.user + w.host + w.port, Ascii("/?#"))
    ensures Avoids(w.user + w.host + w.port, {SLASH, QUESTION, HASH})
    ensures Avoids(w.path, {QUESTION, HASH}) && Avoids(w.query, {HASH})
  {
    assert Ascii("/?#") == [SLASH, QUESTION, HASH] && Ascii("?#") == [QUESTION, HASH] && Ascii("#") == [HASH];
    hide Ascii;
    var a := w.user + w.host + w.port;
    assert SLASH in [SLASH, QUESTION, HASH] && QUESTION in [SLASH, QUESTION, HASH] && HASH in [SLASH, QUESTION, HASH];
    assert QUESTION in [QUESTION, HASH] && HASH in [QUESTION, HASH] && HASH in [HASH];
    assert SLASH !in a && QUESTION !in a && HASH !in a;
    assert QUESTION !in w.path && HASH !in w.path && HASH !in w.query;
  }

  lemma PartsFrom(a: seq<int>, path: seq<int>, query: seq<int>, fragment: seq<int>)
    requires Avoids(a, {SLASH, QUESTION, HASH}) && Avoids(path, {QUESTION, HASH}) && Avoids(query, {HASH})
    requires (path != [] ==> path[0] == SLASH) && (query != [] ==> query[0] == QUESTION)
    requires fragment != [] ==> fragment[0] == HASH
    ensures Parts(a + path + query + fragment) ==
            if HostIn(a).None? then None else Some(Url(HostIn(a).value, path, Tail(query), Tail(fragment)))
  {
    PartsOf(a + path + query + fragment, a, path, query, fragment);
    hide *;
  }

  lemma PartsOf(s: seq<int>, a: seq<int>, path: seq<int>, query: seq<int>, fragment: seq<int>)
    requires Avoids(a, {SLASH, QUESTION, HASH}) && Avoids(path, {QUESTION, HASH}) && Avoids(query, {HASH})
    requires (path != [] ==> path[0] == SLASH) && (query != [] ==> query[0] == QUESTION)
    requires (fragment != [] ==> fragment[0] == HASH) && s == a + path + query + fragment
    ensures Parts(s) == if HostIn(a).None? then None else Some(Url(HostIn(a).value, path, Tail(query), Tail(fragment)))
  {
    WrittenMarks(s, a, path, query, fragment);
    CutFour(s, a, path, query, fragment);
    hide *;
    PartsCut(s, |a|, |a| + |path|, |a| + |path| + |query|, a, path, Tail(query), Tail(fragment));
  }

  lemma PartsCut(s: seq<int>, h: nat, p: nat, q: nat, a: seq<int>, path: seq<int>, query: seq<int>, fragment: seq<int>)
    requires h <= p <= q <= |s| && s[..h] == a && s[h..p] == path
    requires (if p < q then s[p + 1..q] else []) == query && (if q < |s| then s[q + 1..] else []) == fragment
    requires IndexOf(s, {SLASH, QUESTION, HASH}, 0) == h && IndexOf(s, {QUESTION, HASH}, h) == p && IndexOf(s, {HASH}, p) == q
    ensures Parts(s) == if HostIn(a).None? then None else Some(Url(HostIn(a).value, path, query, fragment))
  {
    hide HostIn, IndexOf;
  }

  lemma SplitWritten(w: Written)
    requires WellWritten(w)
    ensures SplitUrl(Link(w)) == Parts(Rest(w))
  {
    hide Parts, Without, Rest, Ascii;
    assert |w.scheme| == 7 && Link(w)[..7] == w.scheme && Link(w)[7..] == Rest(w);
  }

  /** A product path is a slash and a valid identifier, and then it has no second slash. */
  lemma ProductPath(path: seq<int>)
    requires path != [] ==> path[0] == '/' as int
    ensures DetailPath(path) && ValidId(path[1..]) <==> path != [] && IsUuid(path[1..], 8)
    ensures path == [] || path == ['/' as int] || (path != [] && IsUuid(path[1..], 8)) ==> !HasDoubleSlash(path)
  {
    if path != [] && IsUuid(path[1..], 8) {
      var id := path[1..];
      forall i | 1 <= i < |path|
        ensures (IsDigit(path[i]) || 'a' as int <= Lower(path[i]) <= 'z' as int || path[i] == '-' as int) && path[i] != SLASH
      {
        assert path[i] == id[i - 1];
      }
    }
  }

  /** The link names a page of the catalog, or a product. */
  predicate NamesBrowse(w: Written) {
    w.host == Ascii("browse") && (w.path == [] || w.path == Ascii("/"))
  }

  predicate NamesProduct(w: Written) {
    w.host == Ascii("products") && w.path != [] && IsUuid(w.path[1..], 8)
  }

  lemma RouteNamed(w: Written, params: seq<Param>)
    requires WellWritten(w)
    ensures var url := Url(w.host, w.path, Tail(w.query), Tail(w.fragment)); var b := BrowseFromParams(params);
            && RouteOf(url, params) == (if NamesBrowse(w) then Some(BrowseRoute(b))
                                        else if NamesProduct(w) then Some(DetailRoute(LowerCase(w.path[1..]), b)) else None)
            && (NamesBrowse(w) || NamesProduct(w) ==> !HasDoubleSlash(w.path))
  {
    ProductPath(w.path);
    Hosts();
    assert Ascii("/") == [SLASH];
    hide Ascii, IsUuid, LowerCase, DetailPath, BrowseFromParams, HasDoubleSlash, Without, Tail;
  }

  /** What a link means. Written in its parts, a text is a route exactly if it has at most 4096
      units, nothing in its authority but the host, no fragment, none of the three parameters
      twice, and names the catalog or a product with a valid identifier; the route carries that
      identifier in small letters and the place the three parameters give. */
  lemma LinkMeaning(w: Written)
    requires WellWritten(w)
    ensures ParseLink(Link(w)).Some? <==>
              && Utf8.Units(Link(w)) <= 4096 && Bare(w) && NothingTwice(Asks(w)) && (NamesBrowse(w) || NamesProduct(w))
    ensures ParseLink(Link(w)).Some? ==>
              var route := ParseLink(Link(w)).value;
              && Reads(Asks(w), route.browse)
              && (NamesBrowse(w) <==> route.BrowseRoute?)
              && (route.DetailRoute? ==> route.id == LowerCase(w.path[1..]))
  {
    var params := Asks(w);
    SplitWritten(w);
    PartsWritten(w);
    RouteNamed(w, params);
    NoRepeats(params);
    if !Repeated(params) { FieldsRead(params); }
    assert Ascii("browse") != Ascii("products") by { Hosts(); }
    assert |w.fragment| <= 1 <==> Tail(w.fragment) == [];
    ParsedFrom(Link(w), Parts(Rest(w)), params);
    hide ParseLink, Parts, SplitUrl, WellWritten, RouteOf, Reads, Ascii, IsUuid, LowerCase, Utf8.Units, HasDoubleSlash, Link, Rest;
    hide ParseQuery, BrowseFromParams, Repeated, NothingTwice;
  }

  lemma ParsedFrom(raw: seq<int>, url: Option<Url>, params: seq<Param>)
    requires SplitUrl(raw) == url && (url.Some? ==> ParseQuery(url.value.query) == params)
    ensures ParseLink(raw) ==
            if Utf8.Units(raw) > 4096 || url.None? || url.value.fragment != [] || HasDoubleSlash(url.value.path) || Repeated(params)
            then None else RouteOf(url.value, params)
  {
    hide SplitUrl, ParseQuery, Repeated, RouteOf, HasDoubleSlash, Utf8.Units;
  }

  lemma NoRepeats(params: seq<Param>)
    ensures Repeated(params) <==> !NothingTwice(params)
  {
    TwiceOccurs(params, CATEGORY);
    TwiceOccurs(params, SEARCH);
    TwiceOccurs(params, PAGE);
    hide Occurrences, Twice, Ascii;
  }

  /** The parts in which a text is written. */
  function WrittenOf(raw: seq<int>): Written
    requires |raw| >= 7
  {
    var s := raw[7..];
    var h := IndexOf(s, {SLASH, QUESTION, HASH}, 0);
    var p := IndexOf(s, {QUESTION, HASH}, h);
    var q := IndexOf(s, {HASH}, p);
    var k := AfterAt(s[..h]);
    var colon := IndexOf(s[..h][k..], {COLON}, 0);
    Written(raw[..7], s[..h][..k], s[..h][k..][..colon], s[..h][k..][colon..], s[h..p], s[p..q], s[q..])
  }

  lemma WrittenLink(raw: seq<int>)
    requires |raw| >= 7
    ensures Link(WrittenOf(raw)) == raw
  {
    var s := raw[7..];
    var h := IndexOf(s, {SLASH, QUESTION, HASH}, 0);
    var p := IndexOf(s, {QUESTION, HASH}, h);
    var q := IndexOf(s, {HASH}, p);
    CutThree(s, h, p, q);
    CutTwo(s[..h], AfterAt(s[..h]), IndexOf(s[..h][AfterAt(s[..h])..], {COLON}, 0));
    hide AfterAt, IndexOf;
    assert raw[..7] + s == raw;
  }

  lemma CutThree(s: seq<int>, h: nat, p: nat, q: nat)
    requires h <= p <= q <= |s|
    ensures s[..h] + s[h..p] + s[p..q] + s[q..] == s
  {
  }

  lemma CutTwo(a: seq<int>, k: nat, colon: nat)
    requires k <= |a| && colon <= |a[k..]|
    ensures a[..k] + a[k..][..colon] + a[k..][colon..] == a
  {
  }

  lemma Scanned(s: seq<int>, marks: set<int>, i: nat)
    requires i <= |s|
    ensures var k := IndexOf(s, marks, i); Avoids(s[i..k], marks) && (s[k..] != [] ==> s[k..][0] in marks)
  {
    hide IndexOf;
    var k := IndexOf(s, marks, i);
    forall x | x in s[i..k] ensures x !in marks {
      var j :| 0 <= j < |s[i..k]| && s[i..k][j] == x;
      assert x == s[i + j];
    }
  }

  lemma LaterMarks(s: seq<int>, p: nat, q: nat, marks: set<int>)
    requires p <= q <= |s| && (s[p..] != [] ==> s[p..][0] in marks)
    ensures s[p..q] != [] ==> s[p..q][0] in marks
  {
  }

  lemma Shortened(s: seq<int>, marks: set<int>, t: seq<int>)
    requires Avoids(s, marks) && forall x :: x in t ==> x in s
    ensures Avoids(t, marks)
  {
  }

  lemma AuthorityParts(a: seq<int>)
    requires Avoids(a, {SLASH, QUESTION, HASH}) && HostIn(a).Some? && HostIn(a).value != []
    ensures var k := AfterAt(a); var colon := IndexOf(a[k..], {COLON}, 0);
            var user, host, port := a[..k], a[k..][..colon], a[k..][colon..];
            && Avoids(user, {SLASH, QUESTION, HASH}) && Avoids(host, {SLASH, QUESTION, HASH, AT, COLON})
            && Avoids(port, {SLASH, QUESTION, HASH, AT}) && host != []
            && (user != [] ==> user[|user| - 1] == AT) && (port != [] ==> port[0] == COLON)
  {
    var k := AfterAt(a);
    var r := a[k..];
    var colon := IndexOf(r, {COLON}, 0);
    Scanned(r, {COLON}, 0);
    HostFirst(a);
    assert r[0..colon] == r[..colon];
    assert AT !in r;
    hide *;
    CutAvoids(a, {SLASH, QUESTION, HASH}, k);
    CutAvoids(r, {SLASH, QUESTION, HASH}, colon);
    AlsoAvoids(r[..colon], {SLASH, QUESTION, HASH}, AT);
    AlsoAvoids(r[..colon], {SLASH, QUESTION, HASH, AT}, COLON);
    AlsoAvoids(r[colon..], {SLASH, QUESTION, HASH}, AT);
    assert r[colon..] != [] ==> r[colon..][0] == COLON;
  }

  lemma CutAvoids(s: seq<int>, marks: set<int>, k: nat)
    requires k <= |s| && Avoids(s, marks)
    ensures Avoids(s[..k], marks) && Avoids(s[k..], marks)
    ensures forall x :: x in s[..k] || x in s[k..] ==> x in s
  {
  }

  lemma AlsoAvoids(s: seq<int>, marks: set<int>, mark: int)
    requires Avoids(s, marks) && mark !in s
    ensures Avoids(s, marks + {mark})
  {
  }

  lemma HostFirst(a: seq<int>)
    requires HostIn(a).Some? && HostIn(a).value != []
    ensures var k := AfterAt(a);
            && a[k..][..IndexOf(a[k..], {COLON}, 0)] != [] && AT !in a[k..] && (k > 0 ==> a[..k][k - 1] == AT)
  {
    hide AfterAt, IndexOf;
  }

  /** Every text that is a route is written that way, so `LinkMeaning` tells of all of them. */
  lemma LinksAreWritten(raw: seq<int>)
    requires ParseLink(raw).Some?
    ensures |raw| >= 7 && WellWritten(WrittenOf(raw)) && Link(WrittenOf(raw)) == raw
  {
    WrittenLink(raw);
    var w, s := WrittenOf(raw), raw[7..];
    var h := IndexOf(s, {SLASH, QUESTION, HASH}, 0);
    var p := IndexOf(s, {QUESTION, HASH}, h);
    var q := IndexOf(s, {HASH}, p);
    Scanned(s, {SLASH, QUESTION, HASH}, 0);
    Scanned(s, {QUESTION, HASH}, h);
    Scanned(s, {HASH}, p);
    RouteHasHost(raw);
    assert s[0..h] == s[..h];
    AuthorityParts(s[..h]);
    LaterMarks(s, h, p, {SLASH, QUESTION, HASH});
    LaterMarks(s, p, q, {QUESTION, HASH});
    hide AfterAt, IndexOf, HostIn, ParseLink, Link;
    WellWrittenBy(w);
  }

  lemma RouteHasHost(raw: seq<int>)
    requires ParseLink(raw).Some?
    ensures |raw| >= 7 && LowerCase(raw[..7]) == Ascii("hana://")
    ensures var s := raw[7..]; var a := s[..IndexOf(s, {SLASH, QUESTION, HASH}, 0)];
            HostIn(a).Some? && HostIn(a).value != []
  {
    Hosts();
    assert BROWSE_HOST != [] && PRODUCTS_HOST != [];
    hide HostIn, IndexOf, BrowseFromParams, ParseQuery, Repeated, HasDoubleSlash, DetailPath, IsUuid, LowerCase, Ascii, Utf8.Units;
  }

  lemma WellWrittenBy(w: Written)
    requires LowerCase(w.scheme) == Ascii("hana://") && w.host != []
    requires Avoids(w.user, {SLASH, QUESTION, HASH}) && Avoids(w.host, {SLASH, QUESTION, HASH, AT, COLON})
    requires Avoids(w.port, {SLASH, QUESTION, HASH, AT}) && Avoids(w.path, {QUESTION, HASH}) && Avoids(w.query, {HASH})
    requires (w.user != [] ==> w.user[|w.user| - 1] == AT) && (w.port != [] ==> w.port[0] == COLON)
    requires (w.path != [] ==> w.path[0] in {SLASH, QUESTION, HASH}) && (w.query != [] ==> w.query[0] in {QUESTION, HASH})
    requires w.fragment != [] ==> w.fragment[0] == HASH
    ensures WellWritten(w)
  {
    assert w.path != [] ==> w.path[0] in w.path;
    assert w.query != [] ==> w.query[0] in w.query;
    var every := [SLASH, QUESTION, HASH, AT, COLON];
    assert every[..3] == Ascii("/?#") && every[..4] == Ascii("/?#@") && every == Ascii("/?#@:") && every[1..3] == Ascii("?#");
    assert [HASH] == Ascii("#");
    hide Ascii, Avoids, Without;
    Spared(w.user, {SLASH, QUESTION, HASH}, every[..3]);
    Spared(w.host, {SLASH, QUESTION, HASH, AT, COLON}, every);
    Spared(w.port, {SLASH, QUESTION, HASH, AT}, every[..4]);
    Spared(w.path, {QUESTION, HASH}, every[1..3]);
    Spared(w.query, {HASH}, [HASH]);
    assert w.path != [] ==> w.path[0] == SLASH by { FirstSpared(w.path, {QUESTION, HASH}); }
    assert w.query != [] ==> w.query[0] == QUESTION by { FirstSpared(w.query, {HASH}); }
  }

  lemma FirstSpared(s: seq<int>, marks: set<int>)
    requires Avoids(s, marks)
    ensures s != [] ==> s[0] !in marks
  {
    if s != [] {
      var x := s[0];
      assert x in s;
    }
  }

  lemma Spared(s: seq<int>, marks: set<int>, names: seq<int>)
    requires Avoids(s, marks) && forall m :: m in names ==> m in marks
    ensures Without(s, names)
  {
  }

  // Normal form.

  predicate Small(s: seq<int>) {
    forall i :: 0 <= i < |s| ==> !('A' as int <= s[i] <= 'Z' as int)
  }

  predicate NormalPlace(b: Location) {
    && (b.categoryId.Some? ==> IsUuid(b.categoryId.value, 8) && Small(b.categoryId.value))
    && Utf8.Units(b.search) <= 80 && Scalars(b.search)
    && (forall i :: 0 <= i < |b.search| ==> !(0 <= b.search[i] <= 31) && b.search[i] != 127)
    && (b.search != [] ==> !IsBlank(EcmaScript, b.search[0]) && !IsBlank(EcmaScript, b.search[|b.search| - 1]))
    && 1 <= b.page <= 10000
  }

  lemma {:induction false} DecodedScalars(b: seq<int>)
    ensures Scalars(Decode(b))
  {
    if b != [] { DecodedScalars(b[First(b).1..]); }
    hide Spelled, Bytes;
  }

  lemma PairScalars(segment: seq<int>)
    ensures Scalars(PairOf(segment).value)
  {
    var k := IndexOf(segment, {EQUALS}, 0);
    if k < |segment| { DecodedScalars(FormDecode(segment[k + 1..])); }
    hide Decode, FormDecode, IsScalar;
  }

  lemma {:induction false} QueryScalars(q: seq<int>)
    ensures forall p :: p in ParseQuery(q) ==> Scalars(p.value)
    decreases |q|
  {
    hide PairOf, Scalars;
    var k := IndexOf(q, {AMPERSAND}, 0);
    PairScalars(q[..k]);
    if k < |q| { QueryScalars(q[k + 1..]); }
  }

  lemma TrimScalars(s: seq<int>)
    requires Scalars(s)
    ensures Scalars(Trim(EcmaScript, s))
  {
    hide IsScalar;
  }

  lemma PlaceIsNormal(q: seq<int>)
    ensures NormalPlace(BrowseFromParams(ParseQuery(q)))
  {
    var params := ParseQuery(q);
    var b := BrowseFromParams(params);
    var category, search := Get(params, CATEGORY), Get(params, SEARCH).GetOr([]);
    NamedOccurs(params, SEARCH);
    QueryScalars(q);
    assert Scalars(search);
    TrimScalars(search);
    TrimEnds(EcmaScript, search);
    if category.Some? && ValidId(category.value) { LowerCaseUuid(category.value, 8); }
    if ValidText(search) { TrimmedText(search); }
    EmptyText();
    hide ParseQuery, Get, Trim, IsUuid, IsBlank, PageOf, IsScalar;
    SmallLower(category.GetOr([]));
    PageInRange(Get(params, PAGE).GetOr([]));
  }

  lemma SmallLower(s: seq<int>)
    ensures Small(LowerCase(s))
  {
  }

  lemma PageInRange(raw: seq<int>)
    ensures 1 <= PageOf(raw) <= 10000
  {
  }

  predicate NormalRoute(r: Route) {
    NormalPlace(r.browse) && (r.DetailRoute? ==> IsUuid(r.id, 8) && Small(r.id))
  }

  /** Whatever text a link has, the place it leads to is in normal form, so nothing downstream
      sees an untrimmed search, a capital letter in an identifier or a page out of range. */
  lemma ParsedIsNormal(raw: seq<int>)
    ensures ParseLink(raw).Some? ==> NormalRoute(ParseLink(raw).value) && Utf8.Units(raw) <= 4096
  {
    hide NormalPlace, SplitUrl, ParseQuery, BrowseFromParams, HasDoubleSlash, Repeated, DetailPath, Utf8.Units;
    var url := SplitUrl(raw);
    if url.Some? {
      PlaceIsNormal(url.value.query);
      if url.value.path != [] {
        var id := url.value.path[1..];
        if ValidId(id) { LowerCaseUuid(id, 8); }
        SmallLower(id);
      }
    }
    hide IsUuid, LowerCase;
  }

  lemma SmallIsLower(s: seq<int>)
    requires Small(s)
    ensures LowerCase(s) == s
  {
  }

  lemma NormalIsFixed(r: Route)
    requires NormalRoute(r)
    ensures Normal(r) == r
  {
    var b := r.browse;
    if b.categoryId.Some? { SmallIsLower(b.categoryId.value); }
    if r.DetailRoute? { SmallIsLower(r.id); }
    TrimVisible(EcmaScript, b.search);
    hide LowerCase, Trim, Utf8.Units, IsUuid, IsBlank;
    assert ValidText(b.search);
    assert NormalBrowse(b) == b;
  }

  /** Reading a link and printing it again is a projection: for every text the app accepts,
      the printed route is a link of at most 1600 units that leads to the same place. */
  lemma PrintedAgain(raw: seq<int>)
    requires ParseLink(raw).Some?
    ensures var route := ParseLink(raw).value;
            && Scalars(route.browse.search) && (route.DetailRoute? ==> ValidId(route.id))
            && ScalarParams(ParamsOf(route.browse))
            && |LinkText(route, ParamsOf(route.browse))| <= 1600
            && ParseLink(LinkText(route, ParamsOf(route.browse))) == Some(route)
  {
    ParsedIsNormal(raw);
    var route := ParseLink(raw).value;
    NormalIsFixed(route);
    hide ParseLink, ParamsOf, LinkText, Normal, IsUuid, IsScalar, Utf8.Units, ScalarParams, IsBlank;
    LinkRoundTrip(route);
  }
}
