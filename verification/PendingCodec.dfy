/**
 The text the pending-command slot holds: which commands may be stored, how a record is
 printed and what is accepted when it is read back after a restart.
 */
module PendingCodec {
  import opened Wrappers
  import opened Utf16
  import opened Decimal
  import opened Json
  import opened JsonFacts
  import opened PendingController

  const MAX_RECORD := 16384
  const MAX_BODY := 8192

  datatype Incident = Incident(orderId: Text, itemId: Text, kind: Text, quantity: int, photoUri: Text)

  /** `StoredPending`. An upload has no body: the photo file has it. */
  datatype Stored = Stored(scope: Scope, path: Text, key: Text, body: Option<Text>, incident: Option<Incident>)

  predicate IsId(s: Text) { IsUuid(s, 8) }

  const DAMAGED := Ascii("DAMAGED_ITEM")
  const MISSING := Ascii("MISSING_ITEM")
  const FILE_SCHEME := Ascii("file://")
  const EVIDENCE := Ascii("evidence")

  function ScopeName(scope: Scope): Text {
    match scope
    case Cart => Ascii("cart")
    case Checkout => Ascii("checkout")
    case Orders => Ascii("orders")
    case Incidents => Ascii("incidents")
    case Support => Ascii("support")
    case Wallet => Ascii("wallet")
  }

  function ScopeOf(s: Text): (r: Option<Scope>)
    ensures r.Some? ==> ScopeName(r.value) == s
  {
    if s == ScopeName(Cart) then Some(Cart)
    else if s == ScopeName(Checkout) then Some(Checkout)
    else if s == ScopeName(Orders) then Some(Orders)
    else if s == ScopeName(Incidents) then Some(Incidents)
    else if s == ScopeName(Support) then Some(Support)
    else if s == ScopeName(Wallet) then Some(Wallet)
    else None
  }

  lemma ScopeRoundTrip(scope: Scope)
    ensures ScopeOf(ScopeName(scope)) == Some(scope)
  {
    assert ScopeName(Cart)[0] == 'c' as int && ScopeName(Checkout)[0] == 'c' as int && ScopeName(Orders)[0] == 'o' as int;
    assert ScopeName(Incidents)[0] == 'i' as int && ScopeName(Support)[0] == 's' as int && ScopeName(Wallet)[0] == 'w' as int;
    assert |ScopeName(Cart)| == 4 && |ScopeName(Checkout)| == 8;
  }

  // Paths.

  /** `path.split("/")`. */
  function Parts(path: Text): (r: seq<Text>)
    ensures |r| >= 1
    decreases |path|
  {
    var k := IndexOf(path, {SLASH}, 0);
    if k == |path| then [path] else [path[..k]] + Parts(path[k + 1..])
  }

  predicate HexDash(s: Text) {
    s != [] && forall i :: 0 <= i < |s| ==> IsHex(s[i]) || s[i] == '-' as int
  }

  /** The patterns of `allowed`: three segments, any letter case, a loose identifier. */
  predicate Shaped(path: Text, first: Text, lasts: set<Text>) {
    var parts := Parts(LowerCase(path));
    |parts| == 3 && parts[0] == first && HexDash(parts[1]) && parts[2] in lasts
  }

  predicate AllowedPath(scope: Scope, path: Text) {
    match scope
    case Cart => path == Ascii("cart-items")
    case Checkout => path in {Ascii("addresses"), Ascii("quotes"), Ascii("orders")}
    case Orders => Shaped(path, Ascii("orders"), {Ascii("cancel"), Ascii("pickup-confirmation")})
    case Support => path == Ascii("tickets") || Shaped(path, Ascii("notifications"), {Ascii("read")})
    case Wallet => path == Ascii("withdrawals") || Shaped(path, Ascii("withdrawals"), {Ascii("cancel")})
    case Incidents =>
      || path == EVIDENCE
      || Shaped(path, EVIDENCE, {Ascii("discard")})
      || Shaped(path, Ascii("orders"), {Ascii("incidents")})
      || Shaped(path, Ascii("item-returns"), {Ascii("confirm-collection")})
  }

  const WRITES := {Ascii("cart-items"), Ascii("addresses"), Ascii("quotes"), Ascii("orders"),
                   EVIDENCE, Ascii("tickets"), Ascii("withdrawals")}

  /** The segments `target` accepts: exact case and a real identifier in the middle. */
  predicate Addressed(parts: seq<Text>, first: Text, lasts: set<Text>) {
    |parts| == 3 && parts[0] == first && IsId(parts[1]) && parts[2] in lasts
  }

  /** `target(path, "POST")` finds an upstream address. */
  predicate Target(path: Text) {
    || path in WRITES
    || var parts := Parts(path);
       || Addressed(parts, Ascii("orders"), {Ascii("cancel"), Ascii("pickup-confirmation"), Ascii("incidents")})
       || Addressed(parts, Ascii("item-returns"), {Ascii("confirm-collection")})
       || Addressed(parts, EVIDENCE, {Ascii("discard")})
       || Addressed(parts, Ascii("notifications"), {Ascii("read")})
       || Addressed(parts, Ascii("withdrawals"), {Ascii("cancel")})
  }

  // Records.

  /** `incidentContext` accepts the value. */
  predicate IncidentOk(x: Incident) {
    && IsId(x.orderId) && IsId(x.itemId) && (x.kind == DAMAGED || x.kind == MISSING)
    && 1 <= x.quantity <= 999 && 8 <= |x.photoUri| <= 2048 && AllUnits(x.photoUri)
    && StartsWith(x.photoUri, FILE_SCHEME)
  }

  /** The body is the printed form of an object: parsing and printing it changes nothing. */
  predicate Stable(body: Text) {
    && AllUnits(body) && Parse(body).Some? && Parse(body).value.JObject?
    && (ParsedIsWellFormed(body); Stringify(Parse(body).value) == body)
  }

  function Lookup(members: Members, name: Text): Option<Json> {
    if members.NoMembers? then None
    else
      var later := Lookup(members.others, name);
      if later.Some? then later else if members.name == name then Some(members.value) else None
  }

  const CONTENT_TYPE := Ascii("contentType")
  const CONTENT := Ascii("contentBase64")
  const JPEG := Ascii("image/jpeg")

  /** What `record` demands of an upload's body. */
  predicate EvidenceBody(body: Text) {
    var parsed := Parse(body);
    && parsed.Some? && parsed.value.JObject?
    && Lookup(parsed.value.members, CONTENT_TYPE) == Some(JString(JPEG))
    && Lookup(parsed.value.members, CONTENT).Some? && Lookup(parsed.value.members, CONTENT).value.JString?
  }

  /** `record`: what is stored for a command, or `None` where it throws. A body of 8192 units
      is never over the transport's limit of 65536 bytes, so that check cannot fail here. */
  function MakeRecord(scope: Scope, path: Text, body: Text, key: Text, incident: Option<Incident>): Option<Stored>
    requires AllUnits(path) && AllUnits(body)
  {
    if !AllowedPath(scope, path) || !IsId(key) || (incident.Some? && !IncidentOk(incident.value)) then None
    else if path == EVIDENCE then
      if scope.Incidents? && incident.Some? && EvidenceBody(body) then Some(Stored(scope, path, key, None, incident))
      else None
    else if |body| <= MAX_BODY && Target(path) && Stable(body) then Some(Stored(scope, path, key, Some(body), incident))
    else None
  }

  const VERSION := Ascii("version")
  const SCOPE := Ascii("scope")
  const PATH := Ascii("path")
  const KEY := Ascii("key")
  const BODY := Ascii("body")
  const INCIDENT := Ascii("incident")
  const ORDER_ID := Ascii("orderId")
  const ITEM_ID := Ascii("itemId")
  const TYPE := Ascii("type")
  const QUANTITY := Ascii("quantity")
  const PHOTO_URI := Ascii("photoUri")
  const ONE := JNumber(Ascii("1"))

  function IncidentMembers(x: Incident): Members
    requires x.quantity >= 0
  {
    Member(ORDER_ID, JString(x.orderId), Member(ITEM_ID, JString(x.itemId), Member(TYPE, JString(x.kind),
      Member(QUANTITY, JNumber(Digits(x.quantity)), Member(PHOTO_URI, JString(x.photoUri), NoMembers)))))
  }

  function Tail(r: Stored): Members
    requires r.incident.Some? ==> r.incident.value.quantity >= 0
  {
    if r.incident.Some? then Member(INCIDENT, JObject(IncidentMembers(r.incident.value)), NoMembers) else NoMembers
  }

  function RecordMembers(r: Stored): Members
    requires r.incident.Some? ==> r.incident.value.quantity >= 0
  {
    Member(VERSION, ONE, Member(SCOPE, JString(ScopeName(r.scope)), Member(PATH, JString(r.path),
      Member(KEY, JString(r.key), if r.body.Some? then Member(BODY, JString(r.body.value), Tail(r)) else Tail(r)))))
  }

  function IncidentOf(v: Json): (r: Option<Incident>)
    ensures r.Some? ==> IncidentOk(r.value)
  {
    if !v.JObject? then None
    else
      var m := v.members;
      var orderId, itemId, kind := Lookup(m, ORDER_ID), Lookup(m, ITEM_ID), Lookup(m, TYPE);
      var quantity, photo := Lookup(m, QUANTITY), Lookup(m, PHOTO_URI);
      if orderId.Some? && orderId.value.JString? && itemId.Some? && itemId.value.JString?
         && kind.Some? && kind.value.JString? && quantity.Some? && quantity.value.JNumber?
         && ParseDigits(quantity.value.lexeme).Some? && photo.Some? && photo.value.JString?
      then
        var x := Incident(orderId.value.text, itemId.value.text, kind.value.text,
                          ParseDigits(quantity.value.lexeme).value, photo.value.text);
        if IncidentOk(x) then Some(x) else None
      else None
  }

  /** `parseStored`. */
  function ParseStored(raw: Text): Option<Stored> {
    if |raw| > MAX_RECORD then None
    else
      var parsed := Parse(raw);
      if parsed.None? || !parsed.value.JObject? then None else StoredOf(parsed.value.members)
  }

  function StoredOf(m: Members): Option<Stored> {
    var scope, path, key := Lookup(m, SCOPE), Lookup(m, PATH), Lookup(m, KEY);
    var body, context := Lookup(m, BODY), Lookup(m, INCIDENT);
    if Lookup(m, VERSION) != Some(ONE) || scope.None? || !scope.value.JString? || path.None? || !path.value.JString?
       || key.None? || !key.value.JString? || ScopeOf(scope.value.text).None?
    then None
    else
      var s := ScopeOf(scope.value.text).value;
      var incident := if context.None? then None else IncidentOf(context.value);
      if !AllowedPath(s, path.value.text) || !IsId(key.value.text) || (context.Some? && incident.None?) then None
      else if path.value.text == EVIDENCE then
        if s.Incidents? && incident.Some? && body.None? then Some(Stored(s, path.value.text, key.value.text, None, incident))
        else None
      else if body.Some? && body.value.JString? && |body.value.text| <= MAX_BODY
              && Target(path.value.text) && Stable(body.value.text)
      then Some(Stored(s, path.value.text, key.value.text, Some(body.value.text), incident))
      else None
  }

  /** A record `MakeRecord` can return. */
  predicate Storable(r: Stored) {
    && AllUnits(r.path) && AllowedPath(r.scope, r.path) && IsId(r.key)
    && (r.incident.Some? ==> IncidentOk(r.incident.value))
    && (if r.path == EVIDENCE then r.scope.Incidents? && r.incident.Some? && r.body.None?
        else r.body.Some? && |r.body.value| <= MAX_BODY && Target(r.path) && Stable(r.body.value))
  }

  lemma RecordsAreStorable(scope: Scope, path: Text, body: Text, key: Text, incident: Option<Incident>)
    requires AllUnits(path) && AllUnits(body)
    ensures var r := MakeRecord(scope, path, body, key, incident); r.Some? ==> Storable(r.value)
  {
  }

  lemma IdUnits(s: Text)
    requires IsId(s)
    ensures AllUnits(s) && |s| == 36
  {
  }

  lemma DigitsAreNumber(n: nat)
    ensures ValidNumber(Digits(n))
  {
    var s := Digits(n);
    RunToEnd(s, 0);
    assert n < 10 || s[0] != '0' as int;
  }

  lemma {:induction false} RunToEnd(s: Text, i: nat)
    requires AllDigits(s) && i <= |s|
    ensures DigitRun(s, i) == |s|
    decreases |s| - i
  {
    if i < |s| { RunToEnd(s, i + 1); }
  }

  predicate AsciiText(s: Text) {
    forall i :: 0 <= i < |s| ==> 0 <= s[i] < 128
  }

  lemma FieldUnits()
    ensures AsciiText(VERSION) && AsciiText(SCOPE) && AsciiText(PATH) && AsciiText(KEY)
    ensures AsciiText(BODY) && AsciiText(INCIDENT)
    ensures |VERSION| == 7 && |SCOPE| == 5 && |PATH| == 4 && |KEY| == 3 && |BODY| == 4 && |INCIDENT| == 8
  {
  }

  lemma IncidentUnits()
    ensures AsciiText(ORDER_ID) && AsciiText(ITEM_ID) && AsciiText(TYPE) && AsciiText(QUANTITY) && AsciiText(PHOTO_URI)
    ensures AsciiText(DAMAGED) && AsciiText(MISSING)
    ensures |ORDER_ID| == 7 && |ITEM_ID| == 6 && |TYPE| == 4 && |QUANTITY| == 8 && |PHOTO_URI| == 8
    ensures |DAMAGED| == 12 && |MISSING| == 12
  {
  }

  lemma ScopeUnits(scope: Scope)
    ensures AsciiText(ScopeName(scope)) && |ScopeName(scope)| <= 9
  {
  }

  lemma IncidentWellFormed(x: Incident)
    requires IncidentOk(x)
    ensures WellFormedMembers(IncidentMembers(x))
  {
    hide IsUuid, StartsWith, NumberEnd, Digits;
    IncidentUnits();
    IdUnits(x.orderId);
    IdUnits(x.itemId);
    DigitsAreNumber(x.quantity);
    var p := Member(PHOTO_URI, JString(x.photoUri), NoMembers);
    var q := Member(QUANTITY, JNumber(Digits(x.quantity)), p);
    var t := Member(TYPE, JString(x.kind), q);
    assert WellFormedMembers(p) && WellFormedMembers(q) && WellFormedMembers(t);
    assert WellFormedMembers(Member(ITEM_ID, JString(x.itemId), t));
  }

  lemma StringMember(name: Text, text: Text, others: Members)
    requires AsciiText(name) && AllUnits(text) && WellFormedMembers(others)
    ensures WellFormedMembers(Member(name, JString(text), others))
  {
    assert AllUnits(name);
  }

  lemma RecordWellFormed(r: Stored)
    requires Storable(r)
    ensures WellFormedMembers(RecordMembers(r))
  {
    hide AllowedPath, Target, Stable, IsUuid, NumberEnd, Digits, IncidentMembers;
    FieldUnits();
    ScopeUnits(r.scope);
    IdUnits(r.key);
    if r.incident.Some? { IncidentWellFormed(r.incident.value); }
    if r.body.Some? { StableUnits(r.body.value); }
    DigitsAreNumber(1);
    OneDigit();
    var t := Tail(r);
    var b := if r.body.Some? then Member(BODY, JString(r.body.value), t) else t;
    var k := Member(KEY, JString(r.key), b);
    var p := Member(PATH, JString(r.path), k);
    assert WellFormedMembers(t);
    if r.body.Some? { StringMember(BODY, r.body.value, t); }
    StringMember(KEY, r.key, b);
    StringMember(PATH, r.path, k);
    StringMember(SCOPE, ScopeName(r.scope), p);
    assert WellFormedMembers(Member(VERSION, ONE, Member(SCOPE, JString(ScopeName(r.scope)), p)));
  }

  lemma OneDigit()
    ensures Digits(1) == Ascii("1")
  {
  }

  lemma StableUnits(body: Text)
    requires Stable(body)
    ensures AllUnits(body)
  {
  }

  /** `JSON.stringify(record)`. */
  function Print(r: Stored): (s: Text)
    requires Storable(r)
    ensures AllUnits(s)
  {
    RecordWellFormed(r);
    Stringify(JObject(RecordMembers(r)))
  }

  lemma IncidentNames()
    ensures ORDER_ID != ITEM_ID && ORDER_ID != TYPE && ORDER_ID != QUANTITY && ORDER_ID != PHOTO_URI
    ensures ITEM_ID != TYPE && ITEM_ID != QUANTITY && ITEM_ID != PHOTO_URI
    ensures TYPE != QUANTITY && TYPE != PHOTO_URI && QUANTITY != PHOTO_URI
  {
    assert ORDER_ID[0] == 'o' as int && ITEM_ID[0] == 'i' as int && TYPE[0] == 't' as int;
    assert QUANTITY[0] == 'q' as int && PHOTO_URI[0] == 'p' as int;
  }

  lemma IncidentRoundTrip(x: Incident)
    requires IncidentOk(x)
    ensures IncidentOf(JObject(IncidentMembers(x))) == Some(x)
  {
    hide IsUuid, StartsWith;
    ParseOfDigits(x.quantity);
    hide ParseDigits, Digits;
    IncidentNames();
    var p := Member(PHOTO_URI, JString(x.photoUri), NoMembers);
    var q := Member(QUANTITY, JNumber(Digits(x.quantity)), p);
    var t := Member(TYPE, JString(x.kind), q);
    var i := Member(ITEM_ID, JString(x.itemId), t);
    forall name ensures Lookup(p, name) == if name == PHOTO_URI then Some(p.value) else None {}
    forall name ensures Lookup(q, name) == if name == QUANTITY then Some(q.value) else Lookup(p, name) {}
    forall name ensures Lookup(t, name) == if name == TYPE then Some(t.value) else Lookup(q, name) {}
    forall name ensures Lookup(i, name) == if name == ITEM_ID then Some(i.value) else Lookup(t, name) {}
    var m := IncidentMembers(x);
    assert m == Member(ORDER_ID, JString(x.orderId), i);
    forall name ensures Lookup(m, name) == if name == ORDER_ID then Some(m.value) else Lookup(i, name) {}
    hide Lookup;
  }

  lemma FieldNames()
    ensures VERSION != SCOPE && VERSION != PATH && VERSION != KEY && VERSION != BODY && VERSION != INCIDENT
    ensures SCOPE != PATH && SCOPE != KEY && SCOPE != BODY && SCOPE != INCIDENT
    ensures PATH != KEY && PATH != BODY && PATH != INCIDENT && KEY != BODY && KEY != INCIDENT && BODY != INCIDENT
  {
    assert VERSION[0] == 'v' as int && SCOPE[0] == 's' as int && PATH[0] == 'p' as int;
    assert KEY[0] == 'k' as int && BODY[0] == 'b' as int && INCIDENT[0] == 'i' as int;
  }

  lemma FieldsRoundTrip(r: Stored)
    requires Storable(r)
    ensures StoredOf(RecordMembers(r)) == Some(r)
  {
    FieldNames();
    ScopeRoundTrip(r.scope);
    if r.incident.Some? { IncidentRoundTrip(r.incident.value); }
    hide AllowedPath, Target, Stable, IsUuid, IncidentOf, IncidentMembers, ScopeName, ScopeOf, IncidentOk;
    LookupFields(r);
  }

  lemma LookupFields(r: Stored)
    requires r.incident.Some? ==> r.incident.value.quantity >= 0
    ensures var m := RecordMembers(r);
            && Lookup(m, VERSION) == Some(ONE) && Lookup(m, SCOPE) == Some(JString(ScopeName(r.scope)))
            && Lookup(m, PATH) == Some(JString(r.path)) && Lookup(m, KEY) == Some(JString(r.key))
            && Lookup(m, BODY) == (if r.body.Some? then Some(JString(r.body.value)) else None)
            && Lookup(m, INCIDENT) == (if r.incident.Some? then Some(JObject(IncidentMembers(r.incident.value))) else None)
  {
    FieldNames();
    hide IncidentMembers, ScopeName;
    var t := Tail(r);
    var b := if r.body.Some? then Member(BODY, JString(r.body.value), t) else t;
    var k := Member(KEY, JString(r.key), b);
    var p := Member(PATH, JString(r.path), k);
    var s := Member(SCOPE, JString(ScopeName(r.scope)), p);
    forall name ensures Lookup(t, name) == if r.incident.Some? && name == INCIDENT then Some(t.value) else None {}
    forall name ensures Lookup(b, name) == if r.body.Some? && name == BODY then Some(b.value) else Lookup(t, name) {}
    forall name ensures Lookup(k, name) == if name == KEY then Some(k.value) else Lookup(b, name) {}
    forall name ensures Lookup(p, name) == if name == PATH then Some(p.value) else Lookup(k, name) {}
    forall name ensures Lookup(s, name) == if name == SCOPE then Some(s.value) else Lookup(p, name) {}
    assert RecordMembers(r) == Member(VERSION, ONE, s);
  }

  /** Every record that is stored is readable, exactly when its text is within the limit the
      reader puts on it. */
  lemma StoredRoundTrip(scope: Scope, path: Text, body: Text, key: Text, incident: Option<Incident>)
    requires AllUnits(path) && AllUnits(body) && MakeRecord(scope, path, body, key, incident).Some?
    ensures var r := MakeRecord(scope, path, body, key, incident).value;
            && Storable(r)
            && ParseStored(Print(r)) == if |Print(r)| <= MAX_RECORD then Some(r) else None
  {
    RecordsAreStorable(scope, path, body, key, incident);
    var r := MakeRecord(scope, path, body, key, incident).value;
    hide MakeRecord;
    PrintedRecord(r);
  }

  lemma PrintedRecord(r: Stored)
    requires Storable(r)
    ensures ParseStored(Print(r)) == if |Print(r)| <= MAX_RECORD then Some(r) else None
  {
    RecordWellFormed(r);
    RoundTrip(JObject(RecordMembers(r)));
    FieldsRoundTrip(r);
    hide Storable, StoredOf, RecordMembers, Stringify, Parse, WellFormedMembers;
  }
}
