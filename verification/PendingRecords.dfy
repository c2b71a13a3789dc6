/**
 The pending-command store told from the outside: which requests each screen may keep, what a
 record says, which texts are read back as which record, and what a restore makes of them.
 Nothing here follows the code of the store; names and limits are written out.
 */
module PendingRecords {
  import opened Wrappers
  import opened Utf16
  import opened Decimal
  import opened Json
  import opened JsonFacts
  import opened PendingController
  import opened PendingSlot
  import opened PendingCodec
  import opened PendingForms
  import opened PendingStore

  // Which requests.

  function Between(first: Text, id: Text, last: Text): Text {
    first + [SLASH] + (id + [SLASH] + last)
  }

  /** `first/{id}/last` with a valid identifier. */
  predicate Names(path: Text, first: string, last: string) {
    && |path| == |first| + |last| + 38
    && IsUuid(path[|first| + 1..|first| + 37], 8)
    && path == Between(Name(first), path[|first| + 1..|first| + 37], Name(last))
  }

  /** What each screen sends. */
  predicate Sends(scope: Scope, path: Text) {
    match scope
    case Cart => path == Name("cart-items")
    case Checkout => path == Name("addresses") || path == Name("quotes") || path == Name("orders")
    case Orders => Names(path, "orders", "cancel") || Names(path, "orders", "pickup-confirmation")
    case Support => path == Name("tickets") || Names(path, "notifications", "read")
    case Wallet => path == Name("withdrawals") || Names(path, "withdrawals", "cancel")
    case Incidents =>
      || path == Name("evidence") || Names(path, "evidence", "discard") || Names(path, "orders", "incidents")
      || Names(path, "item-returns", "confirm-collection")
  }

  lemma NameIsAscii(s: string)
    requires Plain(s)
    ensures Name(s) == Ascii(s)
  {
  }

  /** The words of the paths, as the other modules write them. */
  lemma Words()
    ensures Ascii("cart-items") == Name("cart-items")
    ensures Ascii("addresses") == Name("addresses")
    ensures Ascii("quotes") == Name("quotes")
    ensures Ascii("orders") == Name("orders")
    ensures Ascii("evidence") == Name("evidence")
    ensures Ascii("tickets") == Name("tickets")
    ensures Ascii("withdrawals") == Name("withdrawals")
    ensures Ascii("cancel") == Name("cancel")
    ensures Ascii("pickup-confirmation") == Name("pickup-confirmation")
    ensures Ascii("incidents") == Name("incidents")
    ensures Ascii("item-returns") == Name("item-returns")
    ensures Ascii("confirm-collection") == Name("confirm-collection")
    ensures Ascii("discard") == Name("discard")
    ensures Ascii("notifications") == Name("notifications")
    ensures Ascii("read") == Name("read")
  {
    NameIsAscii("cart-items");
    NameIsAscii("addresses");
    NameIsAscii("quotes");
    NameIsAscii("orders");
    NameIsAscii("evidence");
    NameIsAscii("tickets");
    NameIsAscii("withdrawals");
    NameIsAscii("cancel");
    NameIsAscii("pickup-confirmation");
    NameIsAscii("incidents");
    NameIsAscii("item-returns");
    NameIsAscii("confirm-collection");
    NameIsAscii("discard");
    NameIsAscii("notifications");
    NameIsAscii("read");
  }

  lemma NoSlash(s: Text)
    requires SLASH !in s
    ensures Parts(s) == [s]
  {
    forall i | 0 <= i < |s| ensures s[i] != SLASH { assert s[i] in s; }
  }

  lemma FirstSlash(a: Text, rest: Text)
    requires SLASH !in a
    ensures Parts(a + [SLASH] + rest) == [a] + Parts(rest)
  {
    var s := a + [SLASH] + rest;
    var k := IndexOf(s, {SLASH}, 0);
    assert s[|a|] == SLASH;
    forall i | 0 <= i < |a| ensures s[i] != SLASH { assert s[i] == a[i] && a[i] in a; }
    assert k == |a|;
    assert s[..k] == a && s[k + 1..] == rest;
  }

  lemma ThreeParts(a: Text, b: Text, c: Text)
    requires SLASH !in a && SLASH !in b && SLASH !in c
    ensures Parts(Between(a, b, c)) == [a, b, c]
  {
    FirstSlash(a, b + [SLASH] + c);
    FirstSlash(b, c);
    NoSlash(c);
    hide Parts;
  }

  lemma {:induction false} PartsBack(s: Text)
    ensures |Parts(s)| == 1 ==> s == Parts(s)[0] && SLASH !in s
    ensures |Parts(s)| > 1 ==> exists rest :: s == Parts(s)[0] + [SLASH] + rest && Parts(rest) == Parts(s)[1..]
  {
    var k := IndexOf(s, {SLASH}, 0);
    if k < |s| {
      assert s == s[..k] + [SLASH] + s[k + 1..];
      assert Parts(s)[1..] == Parts(s[k + 1..]);
    }
  }

  lemma JoinParts(s: Text)
    requires |Parts(s)| == 3
    ensures s == Between(Parts(s)[0], Parts(s)[1], Parts(s)[2])
  {
    PartsBack(s);
    var r :| s == Parts(s)[0] + [SLASH] + r && Parts(r) == Parts(s)[1..];
    PartsBack(r);
    var t :| r == Parts(r)[0] + [SLASH] + t && Parts(t) == Parts(r)[1..];
    PartsBack(t);
    hide Parts;
  }

  /** Small letters and dashes, as every fixed part of a path. */
  predicate Plain(s: string) {
    forall i :: 0 <= i < |s| ==> 'a' <= s[i] <= 'z' || s[i] == '-'
  }

  lemma PlainText(s: string)
    requires Plain(s)
    ensures SLASH !in Name(s) && LowerCase(Name(s)) == Name(s)
  {
    var t := Name(s);
    assert forall i :: 0 <= i < |t| ==> t[i] == s[i] as int;
    assert LowerCase(t) == t;
  }

  lemma IdText(id: Text)
    requires IsUuid(id, 8)
    ensures SLASH !in id && SLASH !in LowerCase(id) && HexDash(LowerCase(id))
  {
    var l := LowerCase(id);
    forall i | 0 <= i < 36
      ensures id[i] != SLASH && l[i] != SLASH && (IsHex(l[i]) || l[i] == '-' as int)
    {
      assert l[i] == Lower(id[i]);
    }
  }

  lemma LowerBetween(a: Text, b: Text, c: Text)
    ensures LowerCase(Between(a, b, c)) == Between(LowerCase(a), LowerCase(b), LowerCase(c))
  {
    assert LowerCase([SLASH]) == [SLASH];
    assert forall x: Text, y: Text :: LowerCase(x + y) == LowerCase(x) + LowerCase(y);
  }

  /** What both ways of reading a path make of `first/{id}/last`. */
  lemma NamedParts(path: Text, first: string, last: string)
    requires Plain(first) && Plain(last) && Names(path, first, last)
    ensures var id := path[|first| + 1..|first| + 37];
            && Parts(path) == [Name(first), id, Name(last)]
            && Parts(LowerCase(path)) == [Name(first), LowerCase(id), Name(last)] && HexDash(LowerCase(id))
  {
    var id := path[|first| + 1..|first| + 37];
    PlainText(first);
    PlainText(last);
    IdText(id);
    hide Name, LowerCase, Parts, IsUuid, HexDash;
    ThreeParts(Name(first), id, Name(last));
    LowerBetween(Name(first), id, Name(last));
    ThreeParts(Name(first), LowerCase(id), Name(last));
  }

  lemma AddressedNames(path: Text, first: string, last: string)
    requires Plain(first) && Plain(last)
    ensures Addressed(Parts(path), Name(first), {Name(last)}) <==> Names(path, first, last)
  {
    if Names(path, first, last) {
      NamedParts(path, first, last);
      assert Addressed(Parts(path), Name(first), {Name(last)}) by { hide Name, IsUuid, Parts; }
    } else if Addressed(Parts(path), Name(first), {Name(last)}) {
      JoinParts(path);
      hide Name, IsUuid, Parts, Names;
      NamesBack(path, first, Parts(path)[1], last);
    }
    hide *;
  }

  lemma NamesBack(path: Text, first: string, id: Text, last: string)
    requires Plain(first) && Plain(last) && IsUuid(id, 8) && path == Between(Name(first), id, Name(last))
    ensures Names(path, first, last)
  {
    assert |id| == 36;
    hide Name, IsUuid;
    assert path[|first| + 1..|first| + 37] == id;
  }

  lemma OneOfThree(parts: seq<Text>, first: Text, a: Text, b: Text, c: Text)
    ensures Addressed(parts, first, {a, b, c}) <==> Addressed(parts, first, {a}) || Addressed(parts, first, {b}) || Addressed(parts, first, {c})
  {
    hide IsUuid;
  }

  lemma Whole(path: Text, name: string)
    requires Plain(name) && path == Name(name)
    ensures |Parts(LowerCase(path))| == 1 && |Parts(path)| == 1
  {
    PlainText(name);
    NoSlash(path);
    hide Parts, Name, LowerCase;
  }

  predicate Single(path: Text) {
    || path == Name("cart-items") || path == Name("addresses") || path == Name("quotes") || path == Name("orders")
    || path == Name("evidence") || path == Name("tickets") || path == Name("withdrawals")
  }

  /** Every address the transport can post to. */
  lemma Targets(path: Text)
    ensures Target(path) <==>
      || Single(path)
      || Names(path, "orders", "cancel") || Names(path, "orders", "pickup-confirmation") || Names(path, "orders", "incidents")
      || Names(path, "item-returns", "confirm-collection") || Names(path, "evidence", "discard")
      || Names(path, "notifications", "read") || Names(path, "withdrawals", "cancel")
  {
    OrderTargets(path);
    ReturnTargets(path);
    OtherTargets(path);
    SingleWrites(path);
    TargetUnfolds(path);
    hide *;
  }

  lemma ReturnTargets(path: Text)
    ensures Addressed(Parts(path), Name("item-returns"), {Name("confirm-collection")}) <==> Names(path, "item-returns", "confirm-collection")
    ensures Addressed(Parts(path), Name("evidence"), {Name("discard")}) <==> Names(path, "evidence", "discard")
  {
    AddressedNames(path, "item-returns", "confirm-collection");
    AddressedNames(path, "evidence", "discard");
    hide *;
  }

  lemma OtherTargets(path: Text)
    ensures Addressed(Parts(path), Name("notifications"), {Name("read")}) <==> Names(path, "notifications", "read")
    ensures Addressed(Parts(path), Name("withdrawals"), {Name("cancel")}) <==> Names(path, "withdrawals", "cancel")
  {
    AddressedNames(path, "notifications", "read");
    AddressedNames(path, "withdrawals", "cancel");
    hide *;
  }

  lemma ThreeNames(path: Text, first: string, a: string, b: string, c: string)
    requires Plain(first) && Plain(a) && Plain(b) && Plain(c)
    ensures Addressed(Parts(path), Name(first), {Name(a), Name(b), Name(c)}) <==>
            Names(path, first, a) || Names(path, first, b) || Names(path, first, c)
  {
    OneOfThree(Parts(path), Name(first), Name(a), Name(b), Name(c));
    AddressedNames(path, first, a);
    AddressedNames(path, first, b);
    AddressedNames(path, first, c);
    hide *;
  }

  lemma OrderTargets(path: Text)
    ensures Addressed(Parts(path), Name("orders"), {Name("cancel"), Name("pickup-confirmation"), Name("incidents")}) <==>
      Names(path, "orders", "cancel") || Names(path, "orders", "pickup-confirmation") || Names(path, "orders", "incidents")
  {
    ThreeNames(path, "orders", "cancel", "pickup-confirmation", "incidents");
    hide *;
  }

  lemma SingleWrites(path: Text)
    ensures path in WRITES <==> Single(path)
  {
    Words();
    hide Name, Ascii;
  }

  lemma TargetUnfolds(path: Text)
    ensures Target(path) <==>
      || path in WRITES
      || Addressed(Parts(path), Name("orders"), {Name("cancel"), Name("pickup-confirmation"), Name("incidents")})
      || Addressed(Parts(path), Name("item-returns"), {Name("confirm-collection")})
      || Addressed(Parts(path), Name("evidence"), {Name("discard")})
      || Addressed(Parts(path), Name("notifications"), {Name("read")})
      || Addressed(Parts(path), Name("withdrawals"), {Name("cancel")})
  {
    Words();
    hide Parts, Addressed, Name, Ascii;
  }

  lemma SingleParts(path: Text)
    requires Single(path)
    ensures |Parts(LowerCase(path))| == 1
  {
    hide Parts, LowerCase;
    if path == Name("cart-items") { Whole(path, "cart-items"); }
    else if path == Name("addresses") { Whole(path, "addresses"); }
    else if path == Name("quotes") { Whole(path, "quotes"); }
    else if path == Name("orders") { Whole(path, "orders"); }
    else if path == Name("evidence") { Whole(path, "evidence"); }
    else if path == Name("tickets") { Whole(path, "tickets"); }
    else { Whole(path, "withdrawals"); }
  }

  lemma NamesShaped(path: Text, first: string, last: string)
    requires Plain(first) && Plain(last) && Names(path, first, last)
    ensures Shaped(path, Name(first), {Name(last)})
  {
    NamedParts(path, first, last);
    hide Name, Parts, LowerCase, IsUuid, HexDash;
  }

  lemma ShapedIs(path: Text, f: string, l: string, first: string, last: string)
    requires Plain(first) && Plain(last) && Plain(f) && Plain(l) && Names(path, f, l)
    requires Shaped(path, Name(first), {Name(last)})
    ensures Names(path, first, last)
  {
    NamedParts(path, f, l);
    NameInjective(first, f);
    NameInjective(last, l);
    hide Parts, LowerCase, IsUuid, Name, HexDash, Names;
  }

  /** For an address the transport can post to, the looser pattern of `allowed` says the same. */
  lemma ShapedTarget(path: Text, first: string, last: string)
    requires Plain(first) && Plain(last) && Target(path) && Shaped(path, Name(first), {Name(last)})
    ensures Names(path, first, last)
  {
    Targets(path);
    hide Target, Names, Name, Single;
    if Single(path) {
      SingleParts(path);
      assert false;
    } else if Names(path, "orders", "cancel") || Names(path, "orders", "pickup-confirmation") || Names(path, "orders", "incidents") {
      hide Shaped;
      ShapedOrder(path, first, last);
    } else {
      hide Shaped;
      ShapedOther(path, first, last);
    }
  }

  lemma ShapedOrder(path: Text, first: string, last: string)
    requires Plain(first) && Plain(last) && Shaped(path, Name(first), {Name(last)})
    requires Names(path, "orders", "cancel") || Names(path, "orders", "pickup-confirmation") || Names(path, "orders", "incidents")
    ensures Names(path, first, last)
  {
    hide Names, Name, Shaped;
    if Names(path, "orders", "cancel") { ShapedIs(path, "orders", "cancel", first, last); }
    else if Names(path, "orders", "incidents") { ShapedIs(path, "orders", "incidents", first, last); }
    else { ShapedIs(path, "orders", "pickup-confirmation", first, last); }
  }

  lemma ShapedOther(path: Text, first: string, last: string)
    requires Plain(first) && Plain(last) && Shaped(path, Name(first), {Name(last)})
    requires || Names(path, "item-returns", "confirm-collection") || Names(path, "evidence", "discard")
             || Names(path, "notifications", "read") || Names(path, "withdrawals", "cancel")
    ensures Names(path, first, last)
  {
    hide Names, Name, Shaped;
    if Names(path, "item-returns", "confirm-collection") { ShapedIs(path, "item-returns", "confirm-collection", first, last); }
    else if Names(path, "evidence", "discard") { ShapedIs(path, "evidence", "discard", first, last); }
    else if Names(path, "notifications", "read") { ShapedIs(path, "notifications", "read", first, last); }
    else { ShapedIs(path, "withdrawals", "cancel", first, last); }
  }

  lemma ShapedFor(path: Text, first: string, last: string)
    requires Plain(first) && Plain(last) && (Names(path, first, last) ==> Target(path))
    ensures Shaped(path, Name(first), {Name(last)}) && Target(path) <==> Names(path, first, last)
  {
    if Names(path, first, last) {
      NamesShaped(path, first, last);
    } else if Shaped(path, Name(first), {Name(last)}) && Target(path) {
      ShapedTarget(path, first, last);
    }
    hide *;
  }

  lemma OneOfTwo(path: Text, first: Text, a: Text, b: Text)
    ensures Shaped(path, first, {a, b}) <==> Shaped(path, first, {a}) || Shaped(path, first, {b})
  {
    hide Parts, LowerCase, HexDash;
  }

  /** `allowed`, with every pattern apart. */
  lemma AllowedUnfolds(path: Text)
    ensures AllowedPath(Cart, path) <==> path == Name("cart-items")
    ensures AllowedPath(Checkout, path) <==> path == Name("addresses") || path == Name("quotes") || path == Name("orders")
    ensures AllowedPath(Orders, path) <==>
      Shaped(path, Name("orders"), {Name("cancel")}) || Shaped(path, Name("orders"), {Name("pickup-confirmation")})
    ensures AllowedPath(Support, path) <==> path == Name("tickets") || Shaped(path, Name("notifications"), {Name("read")})
    ensures AllowedPath(Wallet, path) <==> path == Name("withdrawals") || Shaped(path, Name("withdrawals"), {Name("cancel")})
    ensures AllowedPath(Incidents, path) <==>
      || path == Name("evidence") || Shaped(path, Name("evidence"), {Name("discard")})
      || Shaped(path, Name("orders"), {Name("incidents")}) || Shaped(path, Name("item-returns"), {Name("confirm-collection")})
  {
    Words();
    OneOfTwo(path, Name("orders"), Name("cancel"), Name("pickup-confirmation"));
    hide Shaped, Name, Ascii;
  }

  lemma OrdersSend(path: Text)
    ensures Shaped(path, Name("orders"), {Name("cancel")}) && Target(path) <==> Names(path, "orders", "cancel")
    ensures Shaped(path, Name("orders"), {Name("pickup-confirmation")}) && Target(path) <==> Names(path, "orders", "pickup-confirmation")
    ensures Shaped(path, Name("orders"), {Name("incidents")}) && Target(path) <==> Names(path, "orders", "incidents")
  {
    Targets(path);
    hide Target, Names, Name, Shaped, Single;
    ShapedFor(path, "orders", "cancel");
    ShapedFor(path, "orders", "pickup-confirmation");
    ShapedFor(path, "orders", "incidents");
  }

  lemma OthersSend(path: Text)
    ensures Shaped(path, Name("notifications"), {Name("read")}) && Target(path) <==> Names(path, "notifications", "read")
    ensures Shaped(path, Name("withdrawals"), {Name("cancel")}) && Target(path) <==> Names(path, "withdrawals", "cancel")
  {
    Targets(path);
    hide Target, Names, Name, Shaped, Single;
    ShapedFor(path, "notifications", "read");
    ShapedFor(path, "withdrawals", "cancel");
  }

  lemma IncidentsSend(path: Text)
    ensures Shaped(path, Name("evidence"), {Name("discard")}) && Target(path) <==> Names(path, "evidence", "discard")
    ensures Shaped(path, Name("item-returns"), {Name("confirm-collection")}) && Target(path) <==>
            Names(path, "item-returns", "confirm-collection")
  {
    Targets(path);
    hide Target, Names, Name, Shaped, Single;
    ShapedFor(path, "evidence", "discard");
    ShapedFor(path, "item-returns", "confirm-collection");
  }

  lemma SinglesTarget(path: Text)
    requires Single(path)
    ensures Target(path)
  {
    Targets(path);
    hide *;
  }

  /** What may be stored: for every screen and every text, the store's pattern and the
      transport's together admit exactly the requests that screen makes. */
  lemma ScreensSend(scope: Scope, path: Text)
    ensures AllowedPath(scope, path) && Target(path) <==> Sends(scope, path)
  {
    AllowedUnfolds(path);
    OrdersSend(path);
    OthersSend(path);
    IncidentsSend(path);
    hide Names, Name, AllowedPath, Shaped, Target;
    if Single(path) { SinglesTarget(path); }
  }

  lemma NameInjective(a: string, b: string)
    requires Plain(a) && Plain(b)
    ensures Name(a) == Name(b) <==> a == b
  {
    if Name(a) == Name(b) {
      assert |a| == |b|;
      forall i | 0 <= i < |a| ensures a[i] == b[i] { assert Name(a)[i] == Name(b)[i]; }
    }
  }

  // What a record is.

  predicate Object(text: Text) { Parse(text).Some? && Parse(text).value.JObject? }

  function Get(text: Text, name: string): Option<Json>
    requires Object(text)
  {
    Lookup(Parse(text).value.members, Name(name))
  }

  function Flat(m: Members): seq<(Text, Json)> {
    if m.NoMembers? then [] else [(m.name, m.value)] + Flat(m.others)
  }

  /** Of several members with one name the last counts. */
  lemma {:induction false} LastMember(m: Members, name: Text)
    ensures Lookup(m, name).Some? ==>
              exists k :: 0 <= k < |Flat(m)| && Flat(m)[k] == (name, Lookup(m, name).value)
                          && forall j :: k < j < |Flat(m)| ==> Flat(m)[j].0 != name
    ensures Lookup(m, name).None? ==> forall k :: 0 <= k < |Flat(m)| ==> Flat(m)[k].0 != name
  {
    if m.Member? {
      LastMember(m.others, name);
      var rest := Flat(m.others);
      assert Flat(m) == [(m.name, m.value)] + rest;
      if Lookup(m.others, name).Some? {
        var k :| 0 <= k < |rest| && rest[k] == (name, Lookup(m.others, name).value) && forall j :: k < j < |rest| ==> rest[j].0 != name;
        assert Flat(m)[k + 1] == rest[k];
      } else if m.name == name {
        assert Flat(m)[0] == (name, m.value);
      }
    }
  }

  /** The incident a report is about. */
  predicate FitsIncident(x: Incident) {
    && IsUuid(x.orderId, 8) && IsUuid(x.itemId, 8)
    && (x.kind == Name("DAMAGED_ITEM") || x.kind == Name("MISSING_ITEM"))
    && 0 < x.quantity < 1000 && 8 <= |x.photoUri| <= 2048 && AllUnits(x.photoUri) && x.photoUri[..7] == Name("file://")
  }

  /** A body is kept as it is: an object of at most 8192 units that prints as it reads. */
  predicate FitsBody(body: Text) {
    && AllUnits(body) && |body| <= 8192 && Object(body)
    && (ParsedIsWellFormed(body); Stringify(Parse(body).value) == body)
  }

  /** The picture of an upload is not kept; it must be there as JPEG. */
  predicate FitsUpload(body: Text) {
    Object(body) && Get(body, "contentType") == Some(JString(Name("image/jpeg")))
    && Get(body, "contentBase64").Some? && Get(body, "contentBase64").value.JString?
  }

  predicate Fits(scope: Scope, path: Text, body: Text, key: Text, incident: Option<Incident>) {
    && Sends(scope, path) && IsUuid(key, 8) && (incident.Some? ==> FitsIncident(incident.value))
    && if path == Name("evidence") then incident.Some? && FitsUpload(body) else FitsBody(body)
  }

  lemma Terms()
    ensures EVIDENCE == Name("evidence") && DAMAGED == Name("DAMAGED_ITEM") && MISSING == Name("MISSING_ITEM")
    ensures FILE_SCHEME == Name("file://") && CONTENT_TYPE == Name("contentType") && CONTENT == Name("contentBase64")
    ensures JPEG == Name("image/jpeg")
  {
  }

  lemma FieldTerms()
    ensures VERSION == Name("version") && SCOPE == Name("scope") && PATH == Name("path") && KEY == Name("key")
    ensures BODY == Name("body") && INCIDENT == Name("incident")
    ensures ONE == JNumber(Name("1"))
  {
  }

  lemma IncidentTerms()
    ensures ORDER_ID == Name("orderId") && ITEM_ID == Name("itemId")
    ensures TYPE == Name("type") && QUANTITY == Name("quantity") && PHOTO_URI == Name("photoUri")
  {
  }

  lemma IncidentFits(x: Incident)
    ensures IncidentOk(x) <==> FitsIncident(x)
  {
    Terms();
    assert |FILE_SCHEME| == 7;
    hide Name, Ascii, IsUuid;
  }

  lemma UploadFits(body: Text)
    ensures EvidenceBody(body) <==> FitsUpload(body)
  {
    Terms();
    hide Name, Ascii, Parse, Lookup;
  }

  /** What the store keeps of a request, and which requests it takes: exactly those a screen
      makes. The record has the request as it was given, without an upload's body. */
  lemma RecordMade(scope: Scope, path: Text, body: Text, key: Text, incident: Option<Incident>)
    requires AllUnits(path) && AllUnits(body)
    ensures MakeRecord(scope, path, body, key, incident) ==
            if Fits(scope, path, body, key, incident)
            then Some(Stored(scope, path, key, if path == Name("evidence") then None else Some(body), incident)) else None
  {
    Terms();
    ScreensSend(scope, path);
    if incident.Some? { IncidentFits(incident.value); }
    UploadFits(body);
    if path == Name("evidence") { EvidenceSent(scope, path); }
    hide Name, Ascii, IsUuid, AllowedPath, Target, Sends, FitsIncident, IncidentOk, EvidenceBody, FitsUpload, Parse, Stringify;
    assert Stable(body) && |body| <= MAX_BODY <==> FitsBody(body);
  }

  lemma EvidenceSent(scope: Scope, path: Text)
    requires path == Name("evidence")
    ensures Target(path) && (Sends(scope, path) <==> scope == Incidents)
  {
    SinglesTarget(path);
    assert |path| == 8 && path[0] == 'e' as int;
    hide Target, IsUuid;
  }

  // Which texts are read back.

  function ScopeWord(scope: Scope): Text {
    match scope
    case Cart => Name("cart")
    case Checkout => Name("checkout")
    case Orders => Name("orders")
    case Incidents => Name("incidents")
    case Support => Name("support")
    case Wallet => Name("wallet")
  }

  lemma ScopeWords(scope: Scope)
    ensures ScopeWord(scope) == ScopeName(scope) && ScopeOf(ScopeName(scope)) == Some(scope)
  {
    ScopeRoundTrip(scope);
  }

  predicate SaysIncident(v: Json, x: Incident) {
    && v.JObject? && Lookup(v.members, Name("orderId")) == Some(JString(x.orderId))
    && Lookup(v.members, Name("itemId")) == Some(JString(x.itemId))
    && Lookup(v.members, Name("type")) == Some(JString(x.kind))
    && 0 < x.quantity && Lookup(v.members, Name("quantity")) == Some(JNumber(Digits(x.quantity)))
    && Lookup(v.members, Name("photoUri")) == Some(JString(x.photoUri))
    && FitsIncident(x)
  }

  /** The text has at most 16384 units and is an object that names this record, and the record
      is one a screen makes. */
  predicate Says(text: Text, r: Stored) {
    && |text| <= 16384 && Object(text) && Get(text, "version") == Some(JNumber(Name("1")))
    && Get(text, "scope") == Some(JString(ScopeWord(r.scope))) && Get(text, "path") == Some(JString(r.path))
    && Get(text, "key") == Some(JString(r.key)) && Sends(r.scope, r.path) && IsUuid(r.key, 8)
    && (if r.incident.Some? then Get(text, "incident").Some? && SaysIncident(Get(text, "incident").value, r.incident.value)
        else Get(text, "incident").None?)
    && (if r.path == Name("evidence") then r.incident.Some? && r.body.None? && Get(text, "body").None?
        else r.body.Some? && Get(text, "body") == Some(JString(r.body.value)) && FitsBody(r.body.value))
  }

  lemma IncidentSaid(v: Json, x: Incident)
    ensures IncidentOf(v) == Some(x) <==> SaysIncident(v, x)
  {
    IncidentTerms();
    IncidentFits(x);
    hide Name, Ascii, IsUuid, Lookup, FitsIncident, Digits;
    if SaysIncident(v, x) { ParseOfDigits(x.quantity); }
    if IncidentOf(v) == Some(x) {
      IncidentFits(IncidentOf(v).value);
      assert 0 < x.quantity by { assert IncidentOk(x); }
    }
    hide ParseDigits, IncidentOk;
  }

  /** Reading back, told by the text: exactly the texts that say a record are read as it. */
  lemma RecordRead(text: Text, r: Stored)
    ensures ParseStored(text) == Some(r) <==> Says(text, r)
  {
    hide Parse, Name, Ascii, StoredOf, Lookup, Sends, IsUuid, SaysIncident, FitsBody;
    if Object(text) && |text| <= 16384 { FieldsSaid(Parse(text).value.members, text, r); }
  }

  lemma FieldsRead(m: Members, text: Text, r: Stored)
    requires Object(text) && Parse(text).value.members == m && |text| <= 16384
    requires StoredOf(m) == Some(r)
    ensures Says(text, r)
  {
    FieldTerms();
    Terms();
    ScopeWords(r.scope);
    ScreensSend(r.scope, r.path);
    if r.path == Name("evidence") { EvidenceSent(r.scope, r.path); }
    if Lookup(m, INCIDENT).Some? && r.incident.Some? { IncidentSaid(Lookup(m, INCIDENT).value, r.incident.value); }
    hide Parse, Name, Ascii, Lookup, Sends, IsUuid, SaysIncident, AllowedPath, Target, IncidentOf, ScopeOf, ScopeName, ScopeWord;
    assert r.body.Some? ==> (Stable(r.body.value) && |r.body.value| <= MAX_BODY <==> FitsBody(r.body.value));
    hide FitsBody, Stable;
  }

  lemma FieldsPrinted(m: Members, text: Text, r: Stored)
    requires Object(text) && Parse(text).value.members == m && |text| <= 16384
    requires Says(text, r)
    ensures StoredOf(m) == Some(r)
  {
    FieldTerms();
    Terms();
    ScopeWords(r.scope);
    ScreensSend(r.scope, r.path);
    if r.path == Name("evidence") { EvidenceSent(r.scope, r.path); }
    if Lookup(m, INCIDENT).Some? && r.incident.Some? { IncidentSaid(Lookup(m, INCIDENT).value, r.incident.value); }
    hide Parse, Name, Ascii, Lookup, Sends, IsUuid, SaysIncident, AllowedPath, Target, IncidentOf, ScopeOf, ScopeName, ScopeWord;
    assert r.body.Some? ==> (Stable(r.body.value) && |r.body.value| <= MAX_BODY <==> FitsBody(r.body.value));
    hide FitsBody, Stable;
  }

  lemma FieldsSaid(m: Members, text: Text, r: Stored)
    requires Object(text) && Parse(text).value.members == m && |text| <= 16384
    ensures StoredOf(m) == Some(r) <==> Says(text, r)
  {
    hide *;
    if StoredOf(m) == Some(r) { FieldsRead(m, text, r); }
    if Says(text, r) { FieldsPrinted(m, text, r); }
  }

  // What a restore gives.

  /** The photo file can be read: at most 53336 characters, the base64 of 40000 bytes. */
  predicate Readable(photos: Files, r: Stored) {
    r.incident.Some? && r.incident.value.photoUri in photos && |photos[r.incident.value.photoUri]| <= 53336
  }

  /** The upload a photo file makes. */
  predicate IsUpload(body: Text, base64: Text) {
    && AllUnits(body) && Object(body) && Flat(Parse(body).value.members) ==
         [(Name("contentType"), JString(Name("image/jpeg"))), (Name("contentBase64"), JString(base64))]
  }

  lemma UploadSays(base64: Text)
    requires AllUnits(base64)
    ensures IsUpload(UploadBody(base64), base64)
  {
    Terms();
    UploadUnits(base64);
    RoundTrip(UploadJson(base64));
    hide Name, Ascii, Parse, Stringify, WellFormed;
    var rest := Member(CONTENT, JString(base64), NoMembers);
    assert Flat(rest) == [(CONTENT, JString(base64))];
  }

  /** A restore fails on text no record is read from, and on an upload of its screen whose photo
      cannot be read; it gives nothing for an empty slot or another screen's record; otherwise
      it gives the stored request, an upload with the picture in the file. */
  lemma RestoreGives(text: Option<Text>, photos: Files, expected: Scope)
    requires Base64Files(photos)
    ensures var got := Restore(text, photos, expected);
            && (text.None? ==> got == Ok(None))
            && (text.Some? && ParseStored(text.value).None? ==> got == Err(()))
            && (text.Some? && ParseStored(text.value).Some? ==>
                 var r := ParseStored(text.value).value;
                 if r.scope != expected then got == Ok(None)
                 else if r.path == Name("evidence") && !Readable(photos, r) then got == Err(())
                 else
                   && got.Ok? && got.value.Some?
                   && var c := got.value.value;
                   && c.scope == expected && c.path == r.path && c.key == r.key && c.incident == r.incident
                   && if r.path == Name("evidence") then IsUpload(c.body, photos[r.incident.value.photoUri])
                      else r.body == Some(c.body))
  {
    Terms();
    if text.Some? && ParseStored(text.value).Some? {
      var r := ParseStored(text.value).value;
      RecordRead(text.value, r);
      if Readable(photos, r) { UploadSays(photos[r.incident.value.photoUri]); }
    }
    hide ParseStored, UploadBody, Name, Ascii, IsUpload, IsUuid, Sends, SaysIncident, Object, Get, FitsBody, ScopeWord;
  }

  lemma NamedUnits(path: Text, first: string, last: string)
    requires Plain(first) && Plain(last) && Names(path, first, last)
    ensures AllUnits(path)
  {
    var id := path[|first| + 1..|first| + 37];
    IdUnits(id);
    assert AllUnits(Name(first)) && AllUnits(Name(last)) && AllUnits([SLASH]);
    hide IsUuid, Name;
  }

  lemma NameUnits(s: string)
    requires Plain(s)
    ensures AllUnits(Name(s))
  {
  }

  lemma SingleUnits(path: Text)
    requires Single(path)
    ensures AllUnits(path)
  {
    NameUnits("cart-items");
    NameUnits("addresses");
    NameUnits("quotes");
    NameUnits("orders");
    NameUnits("evidence");
    NameUnits("tickets");
    NameUnits("withdrawals");
    hide *;
    assert Single(path);
    SinglePath(path);
  }

  lemma SinglePath(path: Text)
    requires Single(path)
    ensures path in {Name("cart-items"), Name("addresses"), Name("quotes"), Name("orders"),
                     Name("evidence"), Name("tickets"), Name("withdrawals")}
  {
    hide Name;
  }

  lemma SentUnits(scope: Scope, path: Text)
    requires Sends(scope, path)
    ensures AllUnits(path)
  {
    hide Name, Names;
    if Single(path) { SingleUnits(path); } else { AddressUnits(scope, path); }
  }

  lemma AddressUnits(scope: Scope, path: Text)
    requires Sends(scope, path) && !Single(path)
    ensures AllUnits(path)
  {
    hide Name, Names;
    match scope
    case Orders =>
      if Names(path, "orders", "cancel") { NamedUnits(path, "orders", "cancel"); }
      else { NamedUnits(path, "orders", "pickup-confirmation"); }
    case Support => NamedUnits(path, "notifications", "read");
    case Wallet => NamedUnits(path, "withdrawals", "cancel");
    case Incidents => IncidentsUnits(path);
    case Cart =>
    case Checkout =>
  }

  lemma IncidentsUnits(path: Text)
    requires || Names(path, "evidence", "discard") || Names(path, "orders", "incidents")
             || Names(path, "item-returns", "confirm-collection")
    ensures AllUnits(path)
  {
    hide Name, Names;
    if Names(path, "evidence", "discard") { NamedUnits(path, "evidence", "discard"); }
    else if Names(path, "orders", "incidents") { NamedUnits(path, "orders", "incidents"); }
    else { NamedUnits(path, "item-returns", "confirm-collection"); }
  }

  lemma UploadFitsBody(body: Text, base64: Text)
    requires IsUpload(body, base64)
    ensures FitsUpload(body)
  {
    var m := Parse(body).value.members;
    UploadNames();
    Terms();
    LastMember(m, CONTENT_TYPE);
    LastMember(m, CONTENT);
    assert Flat(m)[0] == (CONTENT_TYPE, JString(JPEG)) && Flat(m)[1] == (CONTENT, JString(base64));
    hide Parse, Name, Ascii, Lookup, Flat;
  }

  /** Whatever text the slot holds, a command restored from it makes the very record that is
      stored, so saving it again is accepted and writes nothing. */
  lemma RestoredIsAccepted(text: Text, photos: Files, expected: Scope)
    requires Base64Files(photos)
    requires Restore(Some(text), photos, expected).Ok? && Restore(Some(text), photos, expected).value.Some?
    ensures var c := Restore(Some(text), photos, expected).value.value;
            && AllUnits(c.path) && AllUnits(c.body)
            && MakeRecord(c.scope, c.path, c.body, c.key, c.incident) == ParseStored(text)
            && ParseStored(text).Some?
            && PendingSlot.Save(ParseStored(text), ParseStored(text).value, Working) == Outcome(ParseStored(text), true)
  {
    RestoreGives(Some(text), photos, expected);
    assert ParseStored(text).Some?;
    var r := ParseStored(text).value;
    var c := Restore(Some(text), photos, expected).value.value;
    RecordRead(text, r);
    Terms();
    SentUnits(r.scope, r.path);
    if r.path == Name("evidence") {
      UploadFitsBody(c.body, photos[r.incident.value.photoUri]);
    }
    assert AllUnits(c.body);
    RecordMade(c.scope, c.path, c.body, c.key, c.incident);
    assert Fits(c.scope, c.path, c.body, c.key, c.incident);
    hide *;
  }

  // What the screens' bodies say.

  function Written(name: string, value: Json): (Text, Json) { (Name(name), value) }

  /** The fields of each body, in order. */
  predicate SaysForm(fields: seq<(Text, Json)>, f: Form) {
    match f
    case SetItem(productId, quantity, version) =>
      && |fields| == 3 && fields[0] == Written("productId", JString(productId))
      && fields[1] == Written("quantity", JNumber(Digits(quantity))) && fields[2] == Written("expectedVersion", JNumber(version))
    case NewAddress(addressId, cityId, text, latitude, longitude) =>
      && |fields| == 5 && fields[0] == Written("addressId", JString(addressId))
      && fields[1] == Written("cityId", JString(cityId)) && fields[2] == Written("text", JString(text))
      && fields[3] == Written("latitude", JNumber(latitude)) && fields[4] == Written("longitude", JNumber(longitude))
    case NewQuote(sellerId, address, legal) =>
      && |fields| == 4 && fields[0] == Written("sellerId", JString(sellerId))
      && fields[1] == Written("addressId", JString(address))
      && fields[2] == Written("purchaseType", JString(if legal then Name("LEGAL") else Name("PERSONAL")))
      && fields[3] == Written("fulfillmentMode", JString(Name("PICKUP")))
    case PlaceOrder(quoteId, credit, disposition, confirmed) =>
      && |fields| == 4 && fields[0] == Written("quoteId", JString(quoteId))
      && fields[1] == Written("creditGrantId", if credit.Some? then JString(credit.value) else JNull)
      && fields[2] == Written("unavailableDisposition", JString(disposition))
      && fields[3] == Written("confirmUnavailable", JBool(confirmed))
    case ChangeOrder(version) => |fields| == 1 && fields[0] == Written("expectedVersion", JNumber(version))
    case Ticket(subject, message) =>
      && |fields| == 2 && fields[0] == Written("subject", JString(subject)) && fields[1] == Written("message", JString(message))
    case Withdraw(amount, reference) =>
      && |fields| == 2 && fields[0] == Written("amountRial", JNumber(amount))
      && fields[1] == Written("ibanVerificationRequestReference", JString(reference))
    case ReportItem(item, kind, reported, evidence) =>
      && |fields| == 4 && fields[0] == Written("orderItemId", JString(item)) && fields[1] == Written("type", JString(kind))
      && fields[2] == Written("quantity", JNumber(Digits(reported))) && fields[3] == Written("evidenceId", JString(evidence))
    case NoFields => fields == []
  }

  lemma OneField(name: string, value: Json, others: Members, rest: seq<(Text, Json)>)
    requires Flat(others) == rest
    ensures Flat(Field(name, value, others)) == [Written(name, value)] + rest
  {
  }

  lemma LastField(name: string, value: Json)
    ensures Flat(Field(name, value, NoMembers)) == [Written(name, value)]
  {
  }

  lemma FlatForm(f: Form)
    ensures SaysForm(Flat(Fields(f)), f)
  {
    hide Name, Ascii, Flat, Field, Digits;
    match f
    case SetItem(productId, quantity, version) =>
      LastField("expectedVersion", JNumber(version));
      var a := Field("expectedVersion", JNumber(version), NoMembers);
      OneField("quantity", JNumber(Digits(quantity)), a, Flat(a));
      var b := Field("quantity", JNumber(Digits(quantity)), a);
      OneField("productId", JString(productId), b, Flat(b));
    case NewAddress(_, _, _, _, _) => FlatAddress(f);
    case NewQuote(_, _, _) => FlatQuote(f);
    case PlaceOrder(_, _, _, _) => FlatPlace(f);
    case ChangeOrder(version) => LastField("expectedVersion", JNumber(version));
    case Ticket(subject, message) =>
      LastField("message", JString(message));
      var a := Field("message", JString(message), NoMembers);
      OneField("subject", JString(subject), a, Flat(a));
    case Withdraw(amount, reference) =>
      LastField("ibanVerificationRequestReference", JString(reference));
      var a := Field("ibanVerificationRequestReference", JString(reference), NoMembers);
      OneField("amountRial", JNumber(amount), a, Flat(a));
    case ReportItem(_, _, _, _) => FlatReport(f);
    case NoFields => assert Flat(NoMembers) == [] by { NoneFlat(); }
  }

  lemma NoneFlat()
    ensures Flat(NoMembers) == []
  {
  }

  lemma FourFields(p: string, v: Json, q: string, w: Json, r: string, x: Json, s: string, y: Json)
    ensures Flat(Field(p, v, Field(q, w, Field(r, x, Field(s, y, NoMembers))))) ==
            [Written(p, v), Written(q, w), Written(r, x), Written(s, y)]
  {
    LastField(s, y);
    var c := Field(s, y, NoMembers);
    OneField(r, x, c, Flat(c));
    var b := Field(r, x, c);
    OneField(q, w, b, Flat(b));
    var a := Field(q, w, b);
    OneField(p, v, a, Flat(a));
    hide *;
    var whole := Field(p, v, a);
    assert Flat(whole) == [Written(p, v)] + ([Written(q, w)] + ([Written(r, x)] + [Written(s, y)]));
  }

  lemma FlatAddress(f: Form)
    requires f.NewAddress?
    ensures SaysForm(Flat(Fields(f)), f)
  {
    hide Name, Ascii, Flat, Field;
    FourFields("cityId", JString(f.cityId), "text", JString(f.text), "latitude", JNumber(f.latitude), "longitude", JNumber(f.longitude));
    var a := Field("cityId", JString(f.cityId), Field("text", JString(f.text),
               Field("latitude", JNumber(f.latitude), Field("longitude", JNumber(f.longitude), NoMembers))));
    OneField("addressId", JString(f.addressId), a, Flat(a));
  }

  lemma FlatQuote(f: Form)
    requires f.NewQuote?
    ensures SaysForm(Flat(Fields(f)), f)
  {
    assert Name("LEGAL") == Ascii("LEGAL") && Name("PERSONAL") == Ascii("PERSONAL") && Name("PICKUP") == Ascii("PICKUP");
    hide Name, Ascii, Flat, Field;
    FourFields("sellerId", JString(f.sellerId), "addressId", JString(f.address),
               "purchaseType", JString(if f.legal then Ascii("LEGAL") else Ascii("PERSONAL")),
               "fulfillmentMode", JString(Ascii("PICKUP")));
  }

  lemma FlatPlace(f: Form)
    requires f.PlaceOrder?
    ensures SaysForm(Flat(Fields(f)), f)
  {
    hide Name, Ascii, Flat, Field;
    FourFields("quoteId", JString(f.quoteId),
               "creditGrantId", if f.creditGrantId.Some? then JString(f.creditGrantId.value) else JNull,
               "unavailableDisposition", JString(f.disposition), "confirmUnavailable", JBool(f.confirmed));
  }

  lemma FlatReport(f: Form)
    requires f.ReportItem?
    ensures SaysForm(Flat(Fields(f)), f)
  {
    hide Name, Ascii, Flat, Field, Digits;
    FourFields("orderItemId", JString(f.orderItemId), "type", JString(f.kind),
               "quantity", JNumber(Digits(f.reported)), "evidenceId", JString(f.evidenceId));
  }

  /** The text a screen posts is read by the server as the fields the buyer filled in. */
  lemma FormSays(f: Form)
    requires FormOk(f)
    ensures WellFormedMembers(Fields(f))
    ensures var body := Stringify(JObject(Fields(f))); Object(body) && SaysForm(Flat(Parse(body).value.members), f)
  {
    FormCost(f);
    FlatForm(f);
    hide Fields, FormOk, Parse, Stringify, Flat, SaysForm;
    RoundTrip(JObject(Fields(f)));
  }
}
