/**
 Printed and parsed buyer links, `hana://browse?...` and `hana://products/{id}?...`. Texts
 are sequences of Unicode scalar values; lengths are counted in UTF-16 units as ECMAScript does.
 */
module DeepLink {
  import opened Wrappers
  import opened Utf16
  import opened Utf8
  import opened Decimal
  import opened BrowseController

  datatype Route = BrowseRoute(browse: Location) | DetailRoute(id: Text, browse: Location)
  datatype Param = Param(name: seq<int>, value: seq<int>)

  const MAX_LINK := 4096
  const SCHEME := Ascii("hana://")
  const BROWSE_HOST := Ascii("browse")
  const PRODUCTS_HOST := Ascii("products")
  const CATEGORY := Ascii("categoryId")
  const SEARCH := Ascii("search")
  const PAGE := Ascii("page")
  const AMPERSAND := '&' as int
  const EQUALS := '=' as int
  const QUESTION := '?' as int
  const HASH := '#' as int

  /** `validMobileCatalogId`. The nil identifier already fails on its version digit. */
  predicate ValidId(s: seq<int>) { IsUuid(s, 8) }

  /** `validBrowseSearch`. */
  predicate ValidText(s: seq<int>) {
    Utf8.Units(Trim(EcmaScript, s)) <= 80 && forall i :: 0 <= i < |s| ==> !(0 <= s[i] < 0x20) && s[i] != 0x7F
  }

  // Printing.

  function CategoryParam(browse: Location): seq<Param> {
    if browse.categoryId.Some? && ValidId(browse.categoryId.value)
    then [Param(CATEGORY, LowerCase(browse.categoryId.value))] else []
  }

  function SearchParam(browse: Location): seq<Param> {
    var trimmed := Trim(EcmaScript, browse.search);
    if ValidText(browse.search) && trimmed != [] then [Param(SEARCH, trimmed)] else []
  }

  function PageParam(browse: Location): seq<Param> {
    if 1 < browse.page <= LAST_PAGE then [Param(PAGE, Digits(browse.page))] else []
  }

  function ParamsOf(browse: Location): seq<Param> {
    CategoryParam(browse) + SearchParam(browse) + PageParam(browse)
  }

  predicate ScalarParams(params: seq<Param>) {
    forall i :: 0 <= i < |params| ==> Scalars(params[i].name) && Scalars(params[i].value) && params[i].name != []
  }

  function PairText(p: Param): Text
    requires Scalars(p.name) && Scalars(p.value)
  {
    FormText(p.name) + [EQUALS] + FormText(p.value)
  }

  /** `params.toString()`. */
  function QueryText(params: seq<Param>): Text
    requires ScalarParams(params)
  {
    if params == [] then []
    else if |params| == 1 then PairText(params[0])
    else PairText(params[0]) + [AMPERSAND] + QueryText(params[1..])
  }

  function PathText(route: Route): Text {
    if route.DetailRoute? then PRODUCTS_HOST + [SLASH] + LowerCase(route.id) else BROWSE_HOST
  }

  function LinkText(route: Route, params: seq<Param>): Text
    requires ScalarParams(params)
  {
    SCHEME + PathText(route) + if params == [] then [] else [QUESTION] + QueryText(params)
  }

  // Parsing.

  function PairOf(segment: seq<int>): Param {
    var k := IndexOf(segment, {EQUALS}, 0);
    Param(Decode(FormDecode(segment[..k])), if k < |segment| then Decode(FormDecode(segment[k + 1..])) else [])
  }

  /** `URLSearchParams`: empty segments are skipped. */
  function ParseQuery(q: seq<int>): seq<Param>
    decreases |q|
  {
    var k := IndexOf(q, {AMPERSAND}, 0);
    var first := if k == 0 then [] else [PairOf(q[..k])];
    if k < |q| then first + ParseQuery(q[k + 1..]) else first
  }

  function Get(params: seq<Param>, name: seq<int>): Option<seq<int>> {
    if params == [] then None
    else if params[0].name == name then Some(params[0].value)
    else Get(params[1..], name)
  }

  function Occurrences(params: seq<Param>, name: seq<int>): nat {
    if params == [] then 0 else (if params[0].name == name then 1 else 0) + Occurrences(params[1..], name)
  }

  datatype Url = Url(host: seq<int>, path: seq<int>, query: seq<int>, fragment: seq<int>)

  const AT := '@' as int
  const COLON := ':' as int

  /** One past the last `@`, or 0. */
  function AfterAt(a: seq<int>): (k: nat)
    ensures k <= |a| && AT !in a[k..]
    ensures k == 0 || a[k - 1] == AT
  {
    if a == [] then 0
    else if a[|a| - 1] == AT then |a|
    else
      var k := AfterAt(a[..|a| - 1]);
      assert a[k..] == a[..|a| - 1][k..] + [a[|a| - 1]];
      k
  }

  /** A host may be followed by an empty port, and the parser refuses a port without a host. */
  function WithoutPort(h: seq<int>): Option<seq<int>> {
    var colon := IndexOf(h, {COLON}, 0);
    if colon == |h| then Some(h)
    else if 0 < colon == |h| - 1 then Some(h[..colon])
    else None
  }

  /** The host of an authority. A user name and a password may be written only if they are empty. */
  function HostIn(a: seq<int>): Option<seq<int>> {
    var k := AfterAt(a);
    if k > 0 && (a[k..] == [] || (a[..k - 1] != [] && a[..k - 1] != [COLON])) then None
    else WithoutPort(a[k..])
  }

  /** What `SplitUrl` finds after the scheme. */
  function Parts(s: seq<int>): Option<Url> {
    var host := IndexOf(s, {SLASH, QUESTION, HASH}, 0);
    var path := IndexOf(s, {QUESTION, HASH}, host);
    var query := IndexOf(s, {HASH}, path);
    if HostIn(s[..host]).None? then None
    else Some(Url(HostIn(s[..host]).value, s[host..path],
                  if path < query then s[path + 1..query] else [],
                  if query < |s| then s[query + 1..] else []))
  }

  /** The parts of `hana://host/path?query#fragment`. */
  function SplitUrl(raw: seq<int>): Option<Url> {
    if |raw| < 7 || LowerCase(raw[..7]) != SCHEME then None else Parts(raw[7..])
  }

  predicate HasDoubleSlash(s: seq<int>) {
    exists i :: 0 <= i < |s| - 1 && s[i] == SLASH && s[i + 1] == SLASH
  }

  /** One to five digits without a leading zero, from 1 to 10000; anything else is page 1. */
  function PageOf(raw: seq<int>): int {
    if 1 <= |raw| <= 5 && AllDigits(raw) && raw[0] != '0' as int && 1 <= Value(raw) <= LAST_PAGE then Value(raw) else 1
  }

  function BrowseFromParams(params: seq<Param>): Location {
    var category, search, page := Get(params, CATEGORY), Get(params, SEARCH).GetOr([]), Get(params, PAGE).GetOr([]);
    Location(if category.Some? && ValidId(category.value) then Some(LowerCase(category.value)) else None,
             if ValidText(search) then Trim(EcmaScript, search) else [],
             PageOf(page))
  }

  predicate DetailPath(path: seq<int>) {
    && |path| >= 2 && path[0] == SLASH
    && forall i :: 1 <= i < |path| ==> IsDigit(path[i]) || 'a' as int <= Lower(path[i]) <= 'z' as int || path[i] == '-' as int
  }

  function RouteOf(url: Url, params: seq<Param>): Option<Route> {
    var browse := BrowseFromParams(params);
    if url.host == BROWSE_HOST && (url.path == [] || url.path == [SLASH]) then Some(BrowseRoute(browse))
    else if url.host == PRODUCTS_HOST && DetailPath(url.path) && ValidId(url.path[1..]) then
      Some(DetailRoute(LowerCase(url.path[1..]), browse))
    else None
  }

  predicate Repeated(params: seq<Param>) {
    Occurrences(params, CATEGORY) > 1 || Occurrences(params, SEARCH) > 1 || Occurrences(params, PAGE) > 1
  }

  function ParseLink(raw: seq<int>): Option<Route> {
    if Utf8.Units(raw) > MAX_LINK then None
    else
      var url := SplitUrl(raw);
      if url.None? || url.value.fragment != [] || HasDoubleSlash(url.value.path) then None
      else
        var params := ParseQuery(url.value.query);
        if Repeated(params) then None else RouteOf(url.value, params)
  }

  /** `parseBuyerLink`. */
  method ParseBuyerLink(raw: seq<int>) returns (r: Option<Route>)
    ensures r == ParseLink(raw)
  {
    if Utf8.Units(raw) > MAX_LINK {
      return None;
    }
    var url := SplitUrl(raw);
    if url.None? || url.value.fragment != [] || HasDoubleSlash(url.value.path) {
      return None;
    }
    var params := ParseQuery(url.value.query);
    var keys := [CATEGORY, SEARCH, PAGE];
    var i := 0;
    while i < |keys|
      invariant 0 <= i <= |keys|
      invariant forall j :: 0 <= j < i ==> Occurrences(params, keys[j]) <= 1
    {
      if Occurrences(params, keys[i]) > 1 {
        assert keys[i] == CATEGORY || keys[i] == SEARCH || keys[i] == PAGE;
        return None;
      }
      i := i + 1;
    }
    assert Occurrences(params, keys[0]) <= 1 && Occurrences(params, keys[1]) <= 1 && Occurrences(params, keys[2]) <= 1;
    return RouteOf(url.value, params);
  }

  /** `formatBuyerLink`. */
  method FormatBuyerLink(route: Route) returns (r: Option<Text>)
    requires Scalars(route.browse.search)
    ensures r == if route.DetailRoute? && !ValidId(route.id) then None
                 else (ParamsAreScalars(route.browse); Some(LinkText(route, ParamsOf(route.browse))))
  {
    ParamsAreScalars(route.browse);
    hide IsUuid, ValidText, Trim, LowerCase, Digits, LinkText, Ascii, ScalarParams;
    if route.DetailRoute? && !ValidId(route.id) {
      return None;
    }
    var params: seq<Param> := [];
    var browse := route.browse;
    if browse.categoryId.Some? && ValidId(browse.categoryId.value) {
      params := params + [Param(CATEGORY, LowerCase(browse.categoryId.value))];
    }
    assert params == CategoryParam(browse);
    if ValidText(browse.search) && Trim(EcmaScript, browse.search) != [] {
      params := params + [Param(SEARCH, Trim(EcmaScript, browse.search))];
    }
    assert params == CategoryParam(browse) + SearchParam(browse);
    if 1 < browse.page <= LAST_PAGE {
      params := params + [Param(PAGE, Digits(browse.page))];
    }
    assert params == ParamsOf(browse);
    return Some(LinkText(route, params));
  }

  lemma ParamsAreScalars(browse: Location)
    requires Scalars(browse.search)
    ensures ScalarParams(ParamsOf(browse))
  {
    var a, b, c := CategoryParam(browse), SearchParam(browse), PageParam(browse);
    assert ScalarParams(a) by {
      if browse.categoryId.Some? && ValidId(browse.categoryId.value) { IdScalars(browse.categoryId.value); }
      hide IsUuid;
    }
    assert ScalarParams(b) by { hide ValidText; }
    assert ScalarParams(c) by { hide Digits; }
    hide CategoryParam, SearchParam, PageParam, Scalars;
  }

  lemma IdScalars(id: Text)
    requires ValidId(id)
    ensures Scalars(LowerCase(id)) && ValidId(LowerCase(id)) && |LowerCase(id)| == 36
    ensures forall i :: 0 <= i < 36 ==>
              || IsDigit(LowerCase(id)[i]) || 'a' as int <= LowerCase(id)[i] <= 'f' as int
              || LowerCase(id)[i] == '-' as int
  {
    LowerCaseUuid(id, 8);
    var l := LowerCase(id);
    forall i | 0 <= i < 36 ensures IsDigit(l[i]) || 'a' as int <= l[i] <= 'f' as int || l[i] == '-' as int {
      assert l[i] == Lower(id[i]);
    }
  }

  // Parsing what was printed.

  function NormalBrowse(b: Location): Location {
    Location(if b.categoryId.Some? && ValidId(b.categoryId.value) then Some(LowerCase(b.categoryId.value)) else None,
             if ValidText(b.search) then Trim(EcmaScript, b.search) else [],
             if 1 < b.page <= LAST_PAGE then b.page else 1)
  }

  /** Lower-case identifiers, trimmed search text, a page from 1 to 10000; an invalid
      category or search is dropped. */
  function Normal(route: Route): Route {
    match route
    case BrowseRoute(b) => BrowseRoute(NormalBrowse(b))
    case DetailRoute(id, b) => DetailRoute(LowerCase(id), NormalBrowse(b))
  }

  lemma IndexAt(s: seq<int>, marks: set<int>, i: nat, k: nat)
    requires i <= k <= |s| && (forall j :: i <= j < k ==> s[j] !in marks) && (k < |s| ==> s[k] in marks)
    ensures IndexOf(s, marks, i) == k
  {
  }

  lemma Slices(a: seq<int>, b: seq<int>, c: seq<int>)
    ensures var s := a + b + c;
            s[..|a|] == a && s[|a|..|a| + |b|] == b && s[|a| + |b|..] == c && (c != [] ==> s[|a| + |b| + 1..|s|] == c[1..])
  {
  }

  lemma MarkAfter(pre: seq<int>, mid: seq<int>, post: seq<int>, marks: set<int>)
    requires (forall x :: x in mid ==> x !in marks) && (post != [] ==> post[0] in marks)
    ensures IndexOf(pre + mid + post, marks, |pre|) == |pre| + |mid|
  {
    hide IndexOf;
    var s := pre + mid + post;
    var k := |pre| + |mid|;
    forall j | |pre| <= j < k ensures s[j] !in marks { assert s[j] == mid[j - |pre|]; }
    if post != [] { assert s[k] == post[0]; }
    IndexAt(s, marks, |pre|, k);
  }

  lemma PairFrom(n: Text, v: Text)
    requires EQUALS !in n
    ensures PairOf(n + [EQUALS] + v) == Param(Decode(FormDecode(n)), Decode(FormDecode(v)))
  {
    hide Decode, FormDecode, IndexOf;
    var s := n + [EQUALS] + v;
    assert [] + n + ([EQUALS] + v) == s;
    MarkAfter([], n, [EQUALS] + v, {EQUALS});
    Slices(n, [EQUALS], v);
  }

  lemma NoSeparators(t: Text)
    requires Clean(t)
    ensures EQUALS !in t && AMPERSAND !in t && HASH !in t
  {
  }

  lemma PairRoundTrip(p: Param)
    requires Scalars(p.name) && Scalars(p.value)
    ensures PairOf(PairText(p)) == p && AMPERSAND !in PairText(p) && HASH !in PairText(p) && PairText(p) != []
  {
    var n, v := FormText(p.name), FormText(p.value);
    FormTextShape(p.name);
    FormTextShape(p.value);
    FormTextBack(p.name);
    FormTextBack(p.value);
    NoSeparators(n);
    NoSeparators(v);
    hide FormText, Decode, FormDecode, Clean, IndexOf, Scalars, Utf8.Units, PairOf;
    PairFrom(n, v);
  }

  lemma LastPair(p: seq<int>)
    requires AMPERSAND !in p && p != []
    ensures ParseQuery(p) == [PairOf(p)]
  {
    hide PairOf, IndexOf;
    assert [] + p + [] == p;
    MarkAfter([], p, [], {AMPERSAND});
    assert p[..|p|] == p;
  }

  lemma MorePairs(p: seq<int>, rest: seq<int>)
    requires AMPERSAND !in p && p != []
    ensures ParseQuery(p + [AMPERSAND] + rest) == [PairOf(p)] + ParseQuery(rest)
  {
    hide PairOf, IndexOf;
    assert [] + p + ([AMPERSAND] + rest) == p + [AMPERSAND] + rest;
    MarkAfter([], p, [AMPERSAND] + rest, {AMPERSAND});
    Slices(p, [AMPERSAND], rest);
  }

  lemma QuerySplit(params: seq<Param>)
    requires ScalarParams(params) && params != []
    ensures ScalarParams(params[1..]) && Scalars(params[0].name) && Scalars(params[0].value)
    ensures QueryText(params) == PairText(params[0]) + if params[1..] == [] then [] else [AMPERSAND] + QueryText(params[1..])
  {
    hide PairText, Scalars;
  }

  lemma EmptyQuery()
    ensures ScalarParams([]) && QueryText([]) == [] && ParseQuery([]) == []
  {
  }

  lemma {:induction false} NoHash(params: seq<Param>)
    requires ScalarParams(params)
    ensures HASH !in QueryText(params)
  {
    assert AMPERSAND != HASH;
    hide *;
    if params == [] {
      EmptyQuery();
    } else {
      QuerySplit(params);
      PairRoundTrip(params[0]);
      NoHash(params[1..]);
    }
  }

  lemma {:induction false} QueryRoundTrip(params: seq<Param>)
    requires ScalarParams(params)
    ensures ParseQuery(QueryText(params)) == params
  {
    hide *;
    if params == [] {
      EmptyQuery();
    } else {
      var first, rest := params[0], params[1..];
      QuerySplit(params);
      PairRoundTrip(first);
      QueryRoundTrip(rest);
      var p, more := PairText(first), QueryText(rest);
      QueryBack(first, p, rest, more);
      assert QueryText(params) == p + if rest == [] then [] else [AMPERSAND] + more;
      assert [first] + rest == params;
    }
  }

  lemma QueryBack(first: Param, p: Text, rest: seq<Param>, more: Text)
    requires AMPERSAND !in p && p != [] && PairOf(p) == first && ParseQuery(more) == rest
    ensures ParseQuery(p + if rest == [] then [] else [AMPERSAND] + more) == [first] + rest
  {
    hide *;
    if rest == [] {
      assert p + [] == p;
      LastPair(p);
    } else {
      assert p + ([AMPERSAND] + more) == p + [AMPERSAND] + more;
      MorePairs(p, more);
    }
  }

  predicate Seven(s: seq<int>) {
    forall i :: 0 <= i < |s| ==> 0 <= s[i] < 128
  }

  lemma PairShape(p: Param)
    requires Scalars(p.name) && Scalars(p.value)
    ensures Seven(PairText(p)) && |PairText(p)| <= 9 * Utf8.Units(p.name) + 9 * Utf8.Units(p.value) + 1
  {
    FormTextShape(p.name);
    FormTextShape(p.value);
    hide FormText, Utf8.Units;
    CleanIsSeven(FormText(p.name));
    CleanIsSeven(FormText(p.value));
    hide Clean;
  }

  lemma CleanIsSeven(t: Text)
    requires Clean(t)
    ensures Seven(t)
  {
  }

  /** The length of a query is at most the sum of its pairs'. */
  lemma {:induction false} QueryLength(params: seq<Param>)
    requires ScalarParams(params)
    ensures |QueryText(params)| <= PairsLength(params) && Seven(QueryText(params))
  {
    if params != [] {
      PairShape(params[0]);
      if |params| > 1 { QueryLength(params[1..]); }
      hide PairText, Utf8.Units, Scalars;
    }
  }

  function PairsLength(params: seq<Param>): nat {
    if params == [] then 0
    else 9 * Utf8.Units(params[0].name) + 9 * Utf8.Units(params[0].value) + 2 + PairsLength(params[1..])
  }

  lemma ParamNames()
    ensures CATEGORY != SEARCH && CATEGORY != PAGE && SEARCH != PAGE
  {
    assert CATEGORY[0] == 'c' as int && SEARCH[0] == 's' as int && PAGE[0] == 'p' as int;
  }

  lemma ParamsOfFields(b: Location)
    ensures var params := ParamsOf(b);
            && !Repeated(params)
            && Get(params, CATEGORY) == (if CategoryParam(b) == [] then None else Some(CategoryParam(b)[0].value))
            && Get(params, SEARCH) == (if SearchParam(b) == [] then None else Some(SearchParam(b)[0].value))
            && Get(params, PAGE) == (if PageParam(b) == [] then None else Some(PageParam(b)[0].value))
  {
    ParamNames();
    var x, y, z := CategoryParam(b), SearchParam(b), PageParam(b);
    assert x == [] || (|x| == 1 && x[0].name == CATEGORY);
    assert y == [] || (|y| == 1 && y[0].name == SEARCH);
    assert z == [] || (|z| == 1 && z[0].name == PAGE);
    hide CategoryParam, SearchParam, PageParam, Ascii;
    ThreeParams(x, y, z);
  }

  /** Looking a name up among at most one parameter of each kind. */
  lemma ThreeParams(x: seq<Param>, y: seq<Param>, z: seq<Param>)
    requires x == [] || (|x| == 1 && x[0].name == CATEGORY)
    requires y == [] || (|y| == 1 && y[0].name == SEARCH)
    requires z == [] || (|z| == 1 && z[0].name == PAGE)
    ensures !Repeated(x + y + z)
    ensures Get(x + y + z, CATEGORY) == (if x == [] then None else Some(x[0].value))
    ensures Get(x + y + z, SEARCH) == (if y == [] then None else Some(y[0].value))
    ensures Get(x + y + z, PAGE) == (if z == [] then None else Some(z[0].value))
  {
    ParamNames();
    hide Ascii;
    forall name
      ensures Get(z, name) == (if z != [] && name == PAGE then Some(z[0].value) else None)
      ensures Occurrences(z, name) == (if z != [] && name == PAGE then 1 else 0)
    {
      if z != [] { assert z[1..] == []; }
    }
    assert (y + z)[|y|..] == z && (x + y + z)[|x|..] == y + z;
    assert y == [] ==> y + z == z;
    assert x == [] ==> x + y + z == y + z;
    forall name
      ensures Get(y + z, name) == (if y != [] && name == SEARCH then Some(y[0].value) else Get(z, name))
      ensures Occurrences(y + z, name) == (if y != [] && name == SEARCH then 1 else 0) + Occurrences(z, name)
    {
    }
    forall name
      ensures Get(x + y + z, name) == (if x != [] && name == CATEGORY then Some(x[0].value) else Get(y + z, name))
      ensures Occurrences(x + y + z, name) == (if x != [] && name == CATEGORY then 1 else 0) + Occurrences(y + z, name)
    {
    }
  }

  lemma PageBack(page: nat)
    requires 1 <= page <= LAST_PAGE
    ensures PageOf(Digits(page)) == page
  {
    assert Power(10, 0) == 1 && Power(10, 1) == 10 && Power(10, 2) == 100 && Power(10, 3) == 1000;
    assert Power(10, 4) == 10000 && Power(10, 5) == 100000;
    DigitsLength(page, 5);
    ValueOfDigits(page);
  }

  lemma TrimmedText(s: seq<int>)
    requires ValidText(s)
    ensures ValidText(Trim(EcmaScript, s)) && Trim(EcmaScript, Trim(EcmaScript, s)) == Trim(EcmaScript, s)
  {
    TrimTwice(EcmaScript, s);
    hide Utf8.Units;
  }

  lemma EmptyText()
    ensures ValidText([]) && Trim(EcmaScript, []) == []
  {
  }

  lemma BrowseBack(b: Location)
    ensures BrowseFromParams(ParamsOf(b)) == NormalBrowse(b)
  {
    ParamsOfFields(b);
    EmptyText();
    if ValidText(b.search) { TrimmedText(b.search); }
    if 1 < b.page <= LAST_PAGE { PageBack(b.page); }
    if b.categoryId.Some? && ValidId(b.categoryId.value) {
      IdScalars(b.categoryId.value);
      LowerCaseTwice(b.categoryId.value);
    }
    hide ParamsOf, Get, ValidText, Trim, IsUuid, LowerCase, Digits, Ascii;
    assert PageOf([]) == 1;
    hide PageOf;
  }

  lemma SchemeFirst(s: seq<int>)
    ensures SplitUrl(SCHEME + s) == Parts(s)
  {
    assert |SCHEME| == 7 && LowerCase(SCHEME) == SCHEME;
    assert (SCHEME + s)[..7] == SCHEME && (SCHEME + s)[7..] == s;
    hide Ascii, LowerCase, IndexOf;
  }

  lemma HostMarks(host: seq<int>)
    requires PlainHost(host)
    ensures SLASH !in host && QUESTION !in host && HASH !in host && AT !in host && COLON !in host
  {
  }

  lemma PathMarks(path: seq<int>)
    requires PlainPath(path)
    ensures QUESTION !in path && HASH !in path
  {
  }

  lemma Marks(path: Text, host: Text, q: seq<int>)
    requires PlainHost(host) && PlainPath(path) && (q != [] ==> q[0] == QUESTION) && HASH !in q
    ensures IndexOf(host + path + q, {SLASH, QUESTION, HASH}, 0) == |host|
    ensures IndexOf(host + path + q, {QUESTION, HASH}, |host|) == |host| + |path|
    ensures IndexOf(host + path + q, {HASH}, |host| + |path|) == |host + path + q|
  {
    HostMarks(host);
    PathMarks(path);
    assert path != [] ==> path[0] == SLASH;
    hide PlainHost, PlainPath, IndexOf;
    assert [] + host + (path + q) == host + path + q;
    MarkAfter([], host, path + q, {SLASH, QUESTION, HASH});
    MarkAfter(host, path, q, {QUESTION, HASH});
    assert (host + path) + q + [] == host + path + q;
    MarkAfter(host + path, q, [], {HASH});
  }

  lemma PartsAt(s: seq<int>, h: nat, p: nat)
    requires h <= p <= |s| && IndexOf(s, {SLASH, QUESTION, HASH}, 0) == h
    requires IndexOf(s, {QUESTION, HASH}, h) == p && IndexOf(s, {HASH}, p) == |s|
    requires AT !in s[..h] && COLON !in s[..h]
    ensures Parts(s) == Some(Url(s[..h], s[h..p], if p < |s| then s[p + 1..|s|] else [], []))
  {
    PlainAuthority(s[..h]);
    hide IndexOf, HostIn;
  }

  lemma AfterAtIs(a: seq<int>, k: nat)
    requires k <= |a| && AT !in a[k..] && (k == 0 || a[k - 1] == AT)
    ensures AfterAt(a) == k
  {
    var n := AfterAt(a);
    forall i | k <= i < |a| ensures a[i] != AT { assert a[i] == a[k..][i - k]; }
    forall i | n <= i < |a| ensures a[i] != AT { assert a[i] == a[n..][i - n]; }
  }

  lemma PortForms(host: seq<int>, port: seq<int>)
    requires host != [] && COLON !in host && (port != [] ==> port[0] == COLON)
    ensures WithoutPort(host + port) == if port == [] || port == [COLON] then Some(host) else None
  {
    assert [] + host + port == host + port;
    MarkAfter([], host, port, {COLON});
    hide IndexOf;
    assert (host + port)[..|host|] == host;
    assert |port| == 1 ==> port == [COLON];
    assert port == [] ==> host + port == host;
  }

  lemma UserForms(user: seq<int>, rest: seq<int>)
    requires rest != [] && AT !in rest && (user != [] ==> user[|user| - 1] == AT)
    ensures HostIn(user + rest) ==
            if user == [] || user == [AT] || user == [COLON, AT] then WithoutPort(rest) else None
  {
    var a := user + rest;
    assert a[|user|..] == rest;
    if user != [] { assert a[|user| - 1] == AT && a[..|user| - 1] == user[..|user| - 1]; }
    AfterAtIs(a, |user|);
    hide AfterAt, WithoutPort;
    if user != [] { assert user == user[..|user| - 1] + [AT]; }
    assert [COLON] + [AT] == [COLON, AT] && [] + [AT] == [AT];
    assert [COLON, AT][..1] == [COLON] && [AT][..0] == [];
  }

  /** An authority stands for its host exactly when it adds nothing but the marks of an empty
      user name, an empty password or an empty port. */
  lemma AuthorityForms(user: seq<int>, host: seq<int>, port: seq<int>)
    requires host != [] && AT !in host && COLON !in host && AT !in port
    requires user != [] ==> user[|user| - 1] == AT
    requires port != [] ==> port[0] == COLON
    ensures HostIn(user + host + port) ==
            if (user == [] || user == [AT] || user == [COLON, AT]) && (port == [] || port == [COLON])
            then Some(host) else None
  {
    assert user + host + port == user + (host + port);
    UserForms(user, host + port);
    PortForms(host, port);
    hide HostIn, WithoutPort;
  }

  lemma PlainAuthority(a: seq<int>)
    requires AT !in a && COLON !in a
    ensures HostIn(a) == Some(a)
  {
    var k := AfterAt(a);
    assert k == 0 && a[k..] == a;
    IndexAt(a, {COLON}, 0, |a|);
  }

  lemma PartsOfLink(path: Text, host: Text, q: seq<int>)
    requires PlainHost(host) && PlainPath(path) && (q != [] ==> q[0] == QUESTION) && HASH !in q
    ensures Parts(host + path + q) == Some(Url(host, path, if q == [] then [] else q[1..], []))
  {
    HostMarks(host);
    Marks(path, host, q);
    Slices(host, path, q);
    hide *;
    PartsAt(host + path + q, |host|, |host| + |path|);
  }

  lemma LinkParts(path: Text, host: Text, q: seq<int>)
    requires PlainHost(host) && PlainPath(path) && (q != [] ==> q[0] == QUESTION) && HASH !in q
    ensures SplitUrl(SCHEME + (host + path + q)) == Some(Url(host, path, if q == [] then [] else q[1..], []))
  {
    hide SplitUrl, Parts, PlainHost, PlainPath;
    SchemeFirst(host + path + q);
    PartsOfLink(path, host, q);
  }

  lemma {:induction false} AsciiUnits(s: seq<int>)
    requires forall i :: 0 <= i < |s| ==> 0 <= s[i] < 0x10000
    ensures Utf8.Units(s) == |s|
  {
    if s != [] { AsciiUnits(s[1..]); }
  }

  lemma CategoryLength(b: Location)
    ensures PairsLength(CategoryParam(b)) <= 416
  {
    AsciiUnits(CATEGORY);
    assert |CATEGORY| == 10;
    if b.categoryId.Some? && ValidId(b.categoryId.value) {
      IdScalars(b.categoryId.value);
      AsciiUnits(LowerCase(b.categoryId.value));
    }
    hide Utf8.Units, Ascii, IsUuid, LowerCase;
    OnePair(CategoryParam(b), 10, 36);
  }

  lemma SearchLength(b: Location)
    ensures PairsLength(SearchParam(b)) <= 776
  {
    AsciiUnits(SEARCH);
    assert |SEARCH| == 6;
    hide Utf8.Units, Ascii, Trim;
    OnePair(SearchParam(b), 6, 80);
  }

  lemma PageLength(b: Location)
    ensures PairsLength(PageParam(b)) <= 83
  {
    AsciiUnits(PAGE);
    assert |PAGE| == 4;
    if 1 < b.page <= LAST_PAGE {
      assert Power(10, 0) == 1 && Power(10, 1) == 10 && Power(10, 2) == 100 && Power(10, 3) == 1000;
      assert Power(10, 4) == 10000 && Power(10, 5) == 100000;
      DigitsLength(b.page, 5);
      AsciiUnits(Digits(b.page));
    }
    hide Utf8.Units, Ascii, Digits;
    OnePair(PageParam(b), 4, 5);
  }

  /** The longest query: a category, eighty units of search text and a page. */
  lemma ParamsLength(b: Location)
    ensures PairsLength(ParamsOf(b)) <= 1500
  {
    CategoryLength(b);
    SearchLength(b);
    PageLength(b);
    hide PairsLength, CategoryParam, SearchParam, PageParam;
    PairsJoin(CategoryParam(b), SearchParam(b));
    PairsJoin(CategoryParam(b) + SearchParam(b), PageParam(b));
  }

  lemma OnePair(params: seq<Param>, n: nat, v: nat)
    requires |params| <= 1
    requires params != [] ==> Utf8.Units(params[0].name) <= n && Utf8.Units(params[0].value) <= v
    ensures PairsLength(params) <= 9 * n + 9 * v + 2
  {
    hide Utf8.Units;
    if params != [] { assert params[1..] == []; }
  }

  lemma {:induction false} PairsJoin(a: seq<Param>, b: seq<Param>)
    ensures PairsLength(a + b) == PairsLength(a) + PairsLength(b)
  {
    hide Utf8.Units;
    if a == [] {
      assert a + b == b;
    } else {
      assert (a + b)[1..] == a[1..] + b;
      PairsJoin(a[1..], b);
    }
  }

  /** Every link the app prints parses back to the route it was printed from, in normal form,
      for every route whose identifiers are valid and whose search text has no lone surrogate;
      and no printed link comes near the 4096 units the parser accepts. */
  lemma LinkRoundTrip(route: Route)
    requires Scalars(route.browse.search) && (route.DetailRoute? ==> ValidId(route.id))
    ensures ScalarParams(ParamsOf(route.browse))
    ensures var link := LinkText(route, ParamsOf(route.browse));
            |link| <= 1600 && ParseLink(link) == Some(Normal(route))
  {
    var params := ParamsOf(route.browse);
    ParamsAreScalars(route.browse);
    QueryRoundTrip(params);
    NoHash(params);
    ParamsLength(route.browse);
    QueryLength(params);
    BrowseBack(route.browse);
    ParamsOfFields(route.browse);
    hide ParamsOf, QueryText, ParseQuery, PairsLength, Repeated, NormalBrowse, BrowseFromParams;
    LinkBack(route, params);
  }

  /** How the path of each route divides into host and path. */
  function HostOf(route: Route): Text { if route.DetailRoute? then PRODUCTS_HOST else BROWSE_HOST }
  function PathOf(route: Route): Text { if route.DetailRoute? then [SLASH] + LowerCase(route.id) else [] }

  lemma DetailParts(id: Text)
    requires ValidId(id)
    ensures var path := [SLASH] + LowerCase(id);
            && |path| == 37 && DetailPath(path) && !HasDoubleSlash(path) && path[1..] == LowerCase(id)
            && ValidId(LowerCase(id)) && LowerCase(LowerCase(id)) == LowerCase(id) && PlainPath(path)
  {
    IdScalars(id);
    LowerCaseTwice(id);
    var l := LowerCase(id);
    var path := [SLASH] + l;
    assert forall i :: 1 <= i < 37 ==> path[i] == l[i - 1];
    assert path[1..] == l;
    hide IsUuid, LowerCase;
  }

  predicate PlainPath(path: seq<int>) {
    && (path != [] ==> path[0] == SLASH)
    && forall i :: 0 <= i < |path| ==>
         IsDigit(path[i]) || 'a' as int <= path[i] <= 'z' as int || path[i] == '-' as int || path[i] == SLASH
  }

  predicate PlainHost(host: seq<int>) {
    forall i :: 0 <= i < |host| ==> 'a' as int <= host[i] <= 'z' as int
  }

  lemma Hosts()
    ensures PlainHost(BROWSE_HOST) && |BROWSE_HOST| == 6 && PlainHost(PRODUCTS_HOST) && |PRODUCTS_HOST| == 8
    ensures BROWSE_HOST != PRODUCTS_HOST
  {
  }

  lemma RouteBack(route: Route, params: seq<Param>, url: Url)
    requires route.DetailRoute? ==> ValidId(route.id)
    requires BrowseFromParams(params) == NormalBrowse(route.browse) && url.host == HostOf(route) && url.path == PathOf(route)
    ensures RouteOf(url, params) == Some(Normal(route)) && !HasDoubleSlash(url.path)
    ensures PlainPath(url.path) && PlainHost(url.host) && |url.path| <= 37 && |url.host| <= 8
    ensures PathText(route) == url.host + url.path
  {
    Hosts();
    hide Ascii, IsUuid, LowerCase, DetailPath, BrowseFromParams, NormalBrowse, PlainHost;
    if route.DetailRoute? { DetailParts(route.id); }
  }

  lemma ParseFrom(link: seq<int>, url: Url, params: seq<Param>)
    requires Utf8.Units(link) <= MAX_LINK && SplitUrl(link) == Some(url) && url.fragment == []
    requires !HasDoubleSlash(url.path) && ParseQuery(url.query) == params && !Repeated(params)
    ensures ParseLink(link) == RouteOf(url, params)
  {
    hide SplitUrl, ParseQuery, Repeated, RouteOf, HasDoubleSlash, Utf8.Units;
  }

  /** A query as it follows the path, with its question mark. */
  function Asked(params: seq<Param>): Text
    requires ScalarParams(params)
  {
    if params == [] then [] else [QUESTION] + QueryText(params)
  }

  lemma LinkShape(route: Route, params: seq<Param>)
    requires ScalarParams(params) && PathText(route) == HostOf(route) + PathOf(route)
    ensures LinkText(route, params) == SCHEME + (HostOf(route) + PathOf(route) + Asked(params))
  {
    hide Ascii, HostOf, PathOf, PathText, QueryText;
  }

  lemma AskedQuery(params: seq<Param>)
    requires ScalarParams(params) && HASH !in QueryText(params)
    ensures var q := Asked(params);
            && HASH !in q && (q != [] ==> q[0] == QUESTION) && (if q == [] then [] else q[1..]) == QueryText(params)
            && |q| <= |QueryText(params)| + 1 && (Seven(QueryText(params)) ==> Seven(q))
  {
    hide PairText;
  }

  lemma LinkBack(route: Route, params: seq<Param>)
    requires ScalarParams(params) && ParseQuery(QueryText(params)) == params && HASH !in QueryText(params)
    requires |QueryText(params)| <= 1500 && Seven(QueryText(params))
    requires !Repeated(params) && BrowseFromParams(params) == NormalBrowse(route.browse)
    requires route.DetailRoute? ==> ValidId(route.id)
    ensures var link := LinkText(route, params); |link| <= 1600 && ParseLink(link) == Some(Normal(route))
  {
    hide QueryText, ParseQuery, Repeated, BrowseFromParams, NormalBrowse, RouteOf, PathText, HostOf, PathOf, Normal;
    hide HasDoubleSlash, IsUuid, SplitUrl, LinkText, Seven, PlainHost, PlainPath, ScalarParams, Asked, ParseLink, Ascii;
    var host, path, q := HostOf(route), PathOf(route), Asked(params);
    var url := Url(host, path, QueryText(params), []);
    RouteBack(route, params, url);
    LinkShape(route, params);
    AskedQuery(params);
    LinkParts(path, host, q);
    SevenLink(host, path, q);
    LinkUnits(LinkText(route, params));
    ParseFrom(LinkText(route, params), url, params);
  }

  lemma LinkUnits(link: seq<int>)
    requires Seven(link)
    ensures Utf8.Units(link) == |link|
  {
    AsciiUnits(link);
  }

  lemma SevenLink(host: seq<int>, path: seq<int>, q: seq<int>)
    requires PlainHost(host) && PlainPath(path) && Seven(q)
    ensures Seven(SCHEME + (host + path + q)) && |SCHEME| == 7
  {
    assert Seven(SCHEME);
    hide Ascii;
    assert Seven(host) && Seven(path);
    hide PlainHost, PlainPath;
  }
}
