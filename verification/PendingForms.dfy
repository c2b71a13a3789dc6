/** The bodies the screens build, and that a stored record of any of them stays readable. */
module PendingForms {
  import opened Wrappers
  import opened Utf16
  import opened Decimal
  import opened Json
  import opened JsonFacts
  import opened PendingController
  import opened PendingCodec

  /** One constructor per body. A `Text` that is a number is its printed form. */
  datatype Form =
    | SetItem(productId: Text, quantity: nat, expectedVersion: Text)
    | NewAddress(addressId: Text, cityId: Text, text: Text, latitude: Text, longitude: Text)
    | NewQuote(sellerId: Text, address: Text, legal: bool)
    | PlaceOrder(quoteId: Text, creditGrantId: Option<Text>, disposition: Text, confirmed: bool)
    | ChangeOrder(version: Text)
    | Ticket(subject: Text, message: Text)
    | Withdraw(amountRial: Text, reference: Text)
    | ReportItem(orderItemId: Text, kind: Text, reported: nat, evidenceId: Text)
    | NoFields

  /** Text a buyer typed, after trimming. */
  predicate Typed(s: Text, max: nat) { AllUnits(s) && |s| <= max }

  /** No double prints longer than 25 characters. */
  predicate Printed(lexeme: Text) { ValidNumber(lexeme) && |lexeme| <= 25 }

  /** The checks the controllers make before they build the body. */
  predicate FormOk(f: Form) {
    match f
    case SetItem(productId, quantity, version) => IsId(productId) && quantity <= 999 && Printed(version)
    case NewAddress(addressId, cityId, text, latitude, longitude) =>
      IsId(addressId) && IsId(cityId) && Typed(text, 1000) && Printed(latitude) && Printed(longitude)
    case NewQuote(sellerId, address, _) => IsId(sellerId) && IsId(address)
    case PlaceOrder(quoteId, credit, disposition, _) =>
      && IsId(quoteId) && (credit.Some? ==> IsId(credit.value))
      && disposition in {Ascii("KEEP"), Ascii("REMOVE")}
    case ChangeOrder(version) => Printed(version)
    case Ticket(subject, message) => Typed(subject, 120) && Typed(message, 2000)
    case Withdraw(amount, reference) => Printed(amount) && Typed(reference, 240)
    case ReportItem(item, kind, reported, evidence) =>
      IsId(item) && (kind == DAMAGED || kind == MISSING) && reported <= 999 && IsId(evidence)
    case NoFields => true
  }

  function Name(s: string): (r: Text)
    ensures |r| == |s| && forall i :: 0 <= i < |s| ==> r[i] == s[i] as int
  {
    seq(|s|, i requires 0 <= i < |s| => s[i] as int)
  }

  function Field(name: string, value: Json, others: Members): Members {
    Member(Name(name), value, others)
  }

  function Fields(f: Form): Members {
    match f
    case SetItem(productId, quantity, version) =>
      Field("productId", JString(productId), Field("quantity", JNumber(Digits(quantity)),
        Field("expectedVersion", JNumber(version), NoMembers)))
    case NewAddress(addressId, cityId, text, latitude, longitude) =>
      Field("addressId", JString(addressId), Field("cityId", JString(cityId), Field("text", JString(text),
        Field("latitude", JNumber(latitude), Field("longitude", JNumber(longitude), NoMembers)))))
    case NewQuote(sellerId, address, legal) =>
      Field("sellerId", JString(sellerId), Field("addressId", JString(address),
        Field("purchaseType", JString(if legal then Ascii("LEGAL") else Ascii("PERSONAL")),
          Field("fulfillmentMode", JString(Ascii("PICKUP")), NoMembers))))
    case PlaceOrder(quoteId, credit, disposition, confirmed) =>
      Field("quoteId", JString(quoteId), Field("creditGrantId", if credit.Some? then JString(credit.value) else JNull,
        Field("unavailableDisposition", JString(disposition), Field("confirmUnavailable", JBool(confirmed), NoMembers))))
    case ChangeOrder(version) => Field("expectedVersion", JNumber(version), NoMembers)
    case Ticket(subject, message) => Field("subject", JString(subject), Field("message", JString(message), NoMembers))
    case Withdraw(amount, reference) =>
      Field("amountRial", JNumber(amount), Field("ibanVerificationRequestReference", JString(reference), NoMembers))
    case ReportItem(item, kind, reported, evidence) =>
      Field("orderItemId", JString(item), Field("type", JString(kind), Field("quantity", JNumber(Digits(reported)),
        Field("evidenceId", JString(evidence), NoMembers))))
    case NoFields => NoMembers
  }

  /** A field counts its name and value and the punctuation around them. */
  lemma FieldCost(name: string, value: Json, others: Members, n: nat, rest: nat)
    requires forall i :: 0 <= i < |name| ==> name[i] as int < 128
    requires Cost(value) <= n && MembersCost(others) <= rest && WellFormed(value) && WellFormedMembers(others)
    ensures MembersCost(Field(name, value, others)) <= 7 * |name| + 6 + n + rest
    ensures WellFormedMembers(Field(name, value, others))
  {
    assert AllUnits(Name(name));
  }

  lemma IdCost(s: Text)
    requires IsId(s)
    ensures WellFormed(JString(s)) && Cost(JString(s)) == 256
  {
    IdUnits(s);
  }

  lemma QuantityCost(n: nat)
    requires n <= 999
    ensures WellFormed(JNumber(Digits(n))) && Cost(JNumber(Digits(n))) <= 3
  {
    DigitsAreNumber(n);
    assert Power(10, 0) == 1 && Power(10, 1) == 10 && Power(10, 2) == 100 && Power(10, 3) == 1000;
    DigitsLength(n, 3);
  }

  lemma WordCost(word: string)
    requires forall i :: 0 <= i < |word| ==> word[i] as int < 128
    ensures WellFormed(JString(Ascii(word))) && Cost(JString(Ascii(word))) == 7 * |word| + 4
  {
    assert AllUnits(Ascii(word));
  }

  predicate Small(f: Form) { f.NoFields? || f.ReportItem? }

  /** Every body is printable, and its length inside the record's text is bounded. */
  lemma FormCost(f: Form)
    requires FormOk(f)
    ensures WellFormedMembers(Fields(f))
    ensures MembersCost(Fields(f)) <= 15000 && (Small(f) ==> MembersCost(Fields(f)) <= 1100)
  {
    hide IsUuid, Digits, NumberEnd, Cost, MembersCost, WellFormed, WellFormedMembers, Field;
    EmptyCost();
    match f
    case SetItem(productId, quantity, version) =>
      IdCost(productId); QuantityCost(quantity); LexemeCost(version);
      FieldCost("expectedVersion", JNumber(version), NoMembers, 25, 0);
      FieldCost("quantity", JNumber(Digits(quantity)), Field("expectedVersion", JNumber(version), NoMembers), 3, 136);
      FieldCost("productId", JString(productId),
                Field("quantity", JNumber(Digits(quantity)), Field("expectedVersion", JNumber(version), NoMembers)), 256, 201);
    case NewAddress(addressId, cityId, text, latitude, longitude) => AddressCost(f);
    case NewQuote(sellerId, address, legal) => QuoteCost(f);
    case PlaceOrder(quoteId, credit, disposition, confirmed) => PlaceCost(f);
    case ChangeOrder(version) =>
      LexemeCost(version);
      FieldCost("expectedVersion", JNumber(version), NoMembers, 25, 0);
    case Ticket(subject, message) =>
      TypedCost(subject, 120); TypedCost(message, 2000);
      FieldCost("message", JString(message), NoMembers, 14004, 0);
      FieldCost("subject", JString(subject), Field("message", JString(message), NoMembers), 844, 14059);
    case Withdraw(amount, reference) =>
      LexemeCost(amount); TypedCost(reference, 240);
      FieldCost("ibanVerificationRequestReference", JString(reference), NoMembers, 1684, 0);
      FieldCost("amountRial", JNumber(amount), Field("ibanVerificationRequestReference", JString(reference), NoMembers), 25, 1914);
    case ReportItem(item, kind, reported, evidence) => ReportCost(f);
    case NoFields =>
  }

  lemma EmptyCost()
    ensures WellFormedMembers(NoMembers) && MembersCost(NoMembers) == 0
  {
  }

  lemma LexemeCost(lexeme: Text)
    requires Printed(lexeme)
    ensures WellFormed(JNumber(lexeme)) && Cost(JNumber(lexeme)) <= 25
  {
  }

  lemma TypedCost(s: Text, max: nat)
    requires Typed(s, max)
    ensures WellFormed(JString(s)) && Cost(JString(s)) <= 7 * max + 4
  {
  }

  lemma AddressCost(f: Form)
    requires FormOk(f) && f.NewAddress?
    ensures WellFormedMembers(Fields(f)) && MembersCost(Fields(f)) <= 15000
  {
    hide IsUuid, Digits, NumberEnd, Cost, MembersCost, WellFormed, WellFormedMembers, Field;
    EmptyCost();
    IdCost(f.addressId); IdCost(f.cityId); TypedCost(f.text, 1000); LexemeCost(f.latitude); LexemeCost(f.longitude);
    var a := Field("longitude", JNumber(f.longitude), NoMembers);
    FieldCost("longitude", JNumber(f.longitude), NoMembers, 25, 0);
    var b := Field("latitude", JNumber(f.latitude), a);
    FieldCost("latitude", JNumber(f.latitude), a, 25, 94);
    var c := Field("text", JString(f.text), b);
    FieldCost("text", JString(f.text), b, 7004, 181);
    var d := Field("cityId", JString(f.cityId), c);
    FieldCost("cityId", JString(f.cityId), c, 256, 7219);
    FieldCost("addressId", JString(f.addressId), d, 256, 7523);
  }

  lemma QuoteCost(f: Form)
    requires FormOk(f) && f.NewQuote?
    ensures WellFormedMembers(Fields(f)) && MembersCost(Fields(f)) <= 15000
  {
    hide IsUuid, Digits, NumberEnd, Cost, MembersCost, WellFormed, WellFormedMembers, Field;
    EmptyCost();
    IdCost(f.sellerId); IdCost(f.address);
    WordCost("LEGAL"); WordCost("PERSONAL"); WordCost("PICKUP");
    var purchase := JString(if f.legal then Ascii("LEGAL") else Ascii("PERSONAL"));
    var a := Field("fulfillmentMode", JString(Ascii("PICKUP")), NoMembers);
    FieldCost("fulfillmentMode", JString(Ascii("PICKUP")), NoMembers, 46, 0);
    var b := Field("purchaseType", purchase, a);
    FieldCost("purchaseType", purchase, a, 60, 157);
    var c := Field("addressId", JString(f.address), b);
    FieldCost("addressId", JString(f.address), b, 256, 307);
    FieldCost("sellerId", JString(f.sellerId), c, 256, 632);
  }

  lemma PlaceCost(f: Form)
    requires FormOk(f) && f.PlaceOrder?
    ensures WellFormedMembers(Fields(f)) && MembersCost(Fields(f)) <= 15000
  {
    hide IsUuid, Digits, NumberEnd, MembersCost, WellFormedMembers, Field;
    EmptyCost();
    IdCost(f.quoteId);
    var credit := if f.creditGrantId.Some? then JString(f.creditGrantId.value) else JNull;
    if f.creditGrantId.Some? { IdCost(f.creditGrantId.value); }
    WordCost("KEEP"); WordCost("REMOVE");
    var a := Field("confirmUnavailable", JBool(f.confirmed), NoMembers);
    FieldCost("confirmUnavailable", JBool(f.confirmed), NoMembers, 5, 0);
    var b := Field("unavailableDisposition", JString(f.disposition), a);
    FieldCost("unavailableDisposition", JString(f.disposition), a, 46, 137);
    var c := Field("creditGrantId", credit, b);
    FieldCost("creditGrantId", credit, b, 256, 343);
    FieldCost("quoteId", JString(f.quoteId), c, 256, 696);
  }

  lemma ReportCost(f: Form)
    requires FormOk(f) && f.ReportItem?
    ensures WellFormedMembers(Fields(f)) && MembersCost(Fields(f)) <= 1100
  {
    hide IsUuid, Digits, NumberEnd, Cost, MembersCost, WellFormed, WellFormedMembers, Field;
    EmptyCost();
    IdCost(f.orderItemId); IdCost(f.evidenceId); QuantityCost(f.reported);
    WordCost("DAMAGED_ITEM"); WordCost("MISSING_ITEM");
    var a := Field("evidenceId", JString(f.evidenceId), NoMembers);
    FieldCost("evidenceId", JString(f.evidenceId), NoMembers, 256, 0);
    var b := Field("quantity", JNumber(Digits(f.reported)), a);
    FieldCost("quantity", JNumber(Digits(f.reported)), a, 3, 332);
    var c := Field("type", JString(f.kind), b);
    FieldCost("type", JString(f.kind), b, 88, 397);
    FieldCost("orderItemId", JString(f.orderItemId), c, 256, 519);
  }

  // The size of a whole record.

  lemma MemberLength(name: Text, value: Json, others: Members, n: nat, v: nat, rest: nat)
    requires WellFormedMembers(Member(name, value, others))
    requires |name| <= n && |Stringify(value)| <= v && |MembersText(others)| <= rest
    ensures |MembersText(Member(name, value, others))| <= 6 * n + 4 + v + rest
  {
    hide Stringify, Escape, WellFormed;
  }

  lemma StringLength(name: Text, text: Text, others: Members, n: nat, k: nat, rest: nat)
    requires AsciiText(name) && AllUnits(text) && WellFormedMembers(others)
    requires |name| <= n && |text| <= k && |MembersText(others)| <= rest
    ensures WellFormedMembers(Member(name, JString(text), others))
    ensures |MembersText(Member(name, JString(text), others))| <= 6 * n + 6 * k + 6 + rest
  {
    StringMember(name, text, others);
    assert |Stringify(JString(text))| <= 6 * k + 2;
    hide Stringify, MembersText, Escape;
    MemberLength(name, JString(text), others, n, 6 * k + 2, rest);
  }

  lemma {:induction false} PartsLength(path: Text)
    ensures |Parts(path)| == 3 ==> |path| == |Parts(path)[0]| + |Parts(path)[1]| + |Parts(path)[2]| + 2
    ensures |Parts(path)| == 2 ==> |path| == |Parts(path)[0]| + |Parts(path)[1]| + 1
    ensures |Parts(path)| == 1 ==> |path| == |Parts(path)[0]|
    decreases |path|
  {
    var k := IndexOf(path, {SLASH}, 0);
    if k < |path| { PartsLength(path[k + 1..]); }
  }

  lemma AddressedLength(path: Text, first: Text, lasts: set<Text>)
    requires Addressed(Parts(path), first, lasts) && |first| <= 13 && forall l :: l in lasts ==> |l| <= 19
    ensures |path| <= 70
  {
    PartsLength(path);
    IdUnits(Parts(path)[1]);
    hide IsUuid, Parts;
  }

  lemma TargetLength(path: Text)
    requires Target(path)
    ensures |path| <= 70
  {
    var parts := Parts(path);
    hide Addressed, Parts;
    var orders, changes := Ascii("orders"), {Ascii("cancel"), Ascii("pickup-confirmation"), Ascii("incidents")};
    if path in WRITES {
      assert |path| <= 11;
    } else if Addressed(parts, orders, changes) {
      AddressedLength(path, orders, changes);
    } else if Addressed(parts, Ascii("item-returns"), {Ascii("confirm-collection")}) {
      AddressedLength(path, Ascii("item-returns"), {Ascii("confirm-collection")});
    } else if Addressed(parts, EVIDENCE, {Ascii("discard")}) {
      AddressedLength(path, EVIDENCE, {Ascii("discard")});
    } else if Addressed(parts, Ascii("notifications"), {Ascii("read")}) {
      AddressedLength(path, Ascii("notifications"), {Ascii("read")});
    } else {
      AddressedLength(path, Ascii("withdrawals"), {Ascii("cancel")});
    }
  }

  lemma PhotoLength(x: Incident)
    requires IncidentOk(x)
    ensures var q := Member(QUANTITY, JNumber(Digits(x.quantity)), Member(PHOTO_URI, JString(x.photoUri), NoMembers));
            WellFormedMembers(q) && |MembersText(q)| <= 12397
  {
    QuantityCost(x.quantity);
    IncidentUnits();
    NoMembersText();
    hide IsUuid, StartsWith, Digits, MembersText, WellFormed, WellFormedMembers, Stringify, Cost, Ascii;
    StringLength(PHOTO_URI, x.photoUri, NoMembers, 8, 2048, 0);
    NumberLength(QUANTITY, Digits(x.quantity), Member(PHOTO_URI, JString(x.photoUri), NoMembers), 8, 3, 12342);
  }

  lemma IncidentLength(x: Incident)
    requires IncidentOk(x)
    ensures WellFormedMembers(IncidentMembers(x)) && |MembersText(IncidentMembers(x))| <= 13021
  {
    PhotoLength(x);
    IdUnits(x.orderId);
    IdUnits(x.itemId);
    IncidentUnits();
    hide IsUuid, StartsWith, Digits, MembersText, WellFormed, WellFormedMembers, Stringify, Cost, Ascii;
    var q := Member(QUANTITY, JNumber(Digits(x.quantity)), Member(PHOTO_URI, JString(x.photoUri), NoMembers));
    var t := Member(TYPE, JString(x.kind), q);
    StringLength(TYPE, x.kind, q, 4, 12, 12397);
    var i := Member(ITEM_ID, JString(x.itemId), t);
    StringLength(ITEM_ID, x.itemId, t, 6, 36, 12499);
    StringLength(ORDER_ID, x.orderId, i, 7, 36, 12757);
  }

  lemma NumberLength(name: Text, lexeme: Text, others: Members, n: nat, k: nat, rest: nat)
    requires AsciiText(name) && WellFormed(JNumber(lexeme)) && WellFormedMembers(others)
    requires |name| <= n && Cost(JNumber(lexeme)) <= k && |MembersText(others)| <= rest
    ensures WellFormedMembers(Member(name, JNumber(lexeme), others))
    ensures |MembersText(Member(name, JNumber(lexeme), others))| <= 6 * n + 4 + k + rest
  {
    assert AllUnits(name);
    assert |Stringify(JNumber(lexeme))| <= k;
    hide Stringify, MembersText, NumberEnd;
    MemberLength(name, JNumber(lexeme), others, n, k, rest);
  }

  lemma NoMembersText()
    ensures WellFormedMembers(NoMembers) && MembersText(NoMembers) == []
  {
  }

  function StableBody(r: Stored): (s: Text)
    requires Storable(r)
    ensures AllUnits(s)
  {
    if r.body.Some? then StableUnits(r.body.value); r.body.value else []
  }

  lemma ObjectLength(m: Members, n: nat)
    requires WellFormedMembers(m) && |MembersText(m)| <= n
    ensures |Stringify(JObject(m))| <= n + 2
  {
    hide MembersText;
  }

  lemma TailLength(r: Stored)
    requires r.incident.Some? ==> IncidentOk(r.incident.value)
    ensures WellFormedMembers(Tail(r)) && |MembersText(Tail(r))| <= if r.incident.Some? then 13075 else 0
  {
    hide IsUuid, IncidentMembers, MembersText, Stringify;
    NoMembersText();
    if r.incident.Some? {
      var m := IncidentMembers(r.incident.value);
      IncidentLength(r.incident.value);
      ObjectLength(m, 13021);
      FieldUnits();
      assert AllUnits(INCIDENT) && WellFormed(JObject(m));
      MemberLength(INCIDENT, JObject(m), NoMembers, 8, 13023, 0);
    }
  }

  lemma BodyLength(r: Stored, n: nat)
    requires Storable(r) && WellFormedMembers(Tail(r)) && |MembersText(Tail(r))| <= n
    ensures var b := if r.body.Some? then Member(BODY, JString(r.body.value), Tail(r)) else Tail(r);
            WellFormedMembers(b) && |MembersText(b)| <= n + 30 + |Escape(StableBody(r))|
  {
    hide IsUuid, AllowedPath, Target, Stable, IncidentMembers, MembersText, Escape;
    if r.body.Some? {
      var body := StableBody(r);
      FieldUnits();
      StringMember(BODY, body, Tail(r));
      assert |Stringify(JString(body))| == |Escape(body)| + 2;
      MemberLength(BODY, JString(body), Tail(r), 4, |Escape(body)| + 2, n);
    }
  }

  /** The record's text is its body escaped once more, the incident, and at most 860 more. */
  lemma RecordLength(r: Stored)
    requires Storable(r) && |r.path| <= 70
    ensures |Print(r)| <= 860 + |Escape(StableBody(r))| + (if r.incident.Some? then 13075 else 0)
  {
    RecordWellFormed(r);
    hide IsUuid, AllowedPath, Target, Stable, IncidentMembers, MembersText, WellFormed, WellFormedMembers, Stringify, Escape;
    IdUnits(r.key);
    ScopeUnits(r.scope);
    FieldUnits();
    TailLength(r);
    BodyLength(r, if r.incident.Some? then 13075 else 0);
    var b := if r.body.Some? then Member(BODY, JString(r.body.value), Tail(r)) else Tail(r);
    var m := (if r.incident.Some? then 13075 else 0) + 30 + |Escape(StableBody(r))|;
    var k := Member(KEY, JString(r.key), b);
    StringLength(KEY, r.key, b, 3, 36, m);
    var p := Member(PATH, JString(r.path), k);
    StringLength(PATH, r.path, k, 4, 70, m + 240);
    var s := Member(SCOPE, JString(ScopeName(r.scope)), p);
    StringLength(SCOPE, ScopeName(r.scope), p, 5, 9, m + 690);
    OneCost();
    NumberLength(VERSION, Ascii("1"), s, 7, 1, m + 780);
    ObjectLength(RecordMembers(r), m + 828);
  }

  lemma OneCost()
    ensures WellFormed(JNumber(Ascii("1"))) && Cost(JNumber(Ascii("1"))) == 1
  {
    DigitsAreNumber(1);
    OneDigit();
  }

  /** Whatever the buyer fills in, a stored command can be read back after a restart: for
      every body the screens build and every record the store accepts for it, the text stays
      within the reader's limit. Only the incident screens attach an incident, and their
      bodies are the small ones; an upload has no body at all. */
  lemma FormsStayReadable(f: Form, scope: Scope, path: Text, key: Text, incident: Option<Incident>)
    requires FormOk(f) && AllUnits(path) && (incident.Some? ==> Small(f))
    ensures WellFormedMembers(Fields(f))
    ensures var body := Stringify(JObject(Fields(f)));
            var r := MakeRecord(scope, path, body, key, incident);
            r.Some? ==> Storable(r.value) && ParseStored(Print(r.value)) == r
  {
    FormCost(f);
    var v := JObject(Fields(f));
    var body := Stringify(v);
    PrintedCost(v);
    assert Cost(v) == 2 + MembersCost(Fields(f));
    hide Fields, FormOk, MembersCost, Cost;
    var r := MakeRecord(scope, path, body, key, incident);
    RecordsAreStorable(scope, path, body, key, incident);
    MadeFrom(scope, path, body, key, incident);
    hide MakeRecord, Stringify, Escape;
    if r.Some? {
      RecordLength(r.value);
      PrintedRecord(r.value);
      assert |Print(r.value)| <= MAX_RECORD;
    }
  }

  lemma MadeFrom(scope: Scope, path: Text, body: Text, key: Text, incident: Option<Incident>)
    requires AllUnits(path) && AllUnits(body)
    ensures var r := MakeRecord(scope, path, body, key, incident);
            r.Some? ==> |path| <= 70 && r.value.path == path && r.value.incident == incident
                        && (r.value.body.Some? ==> r.value.body.value == body)
  {
    hide IsUuid, AllowedPath, Stable, IncidentOk, EvidenceBody;
    if Target(path) { TargetLength(path); }
  }

  lemma UploadsStayReadable(path: Text, body: Text, key: Text, incident: Option<Incident>)
    requires AllUnits(body) && path == EVIDENCE
    ensures var r := MakeRecord(Incidents, path, body, key, incident);
            r.Some? ==> Storable(r.value) && ParseStored(Print(r.value)) == r
  {
    var r := MakeRecord(Incidents, path, body, key, incident);
    RecordsAreStorable(Incidents, path, body, key, incident);
    MadeFrom(Incidents, path, body, key, incident);
    if r.Some? {
      assert r.value.body.None?;
      hide MakeRecord, IsUuid, IncidentOk;
      RecordLength(r.value);
      PrintedRecord(r.value);
    }
  }

  // A body outside the screens' limits that is stored and can never be read back.

  function Quotes(n: nat): (r: Text)
    ensures |r| == n && AllUnits(r)
  {
    seq(n, i => QUOTE)
  }

  lemma {:induction false} Doubled(t: Text)
    requires AllUnits(t) && forall i :: 0 <= i < |t| ==> t[i] == QUOTE || t[i] == BACKSLASH
    ensures |Escape(t)| == 2 * |t|
    ensures forall i :: 0 <= i < |Escape(t)| ==> Escape(t)[i] == QUOTE || Escape(t)[i] == BACKSLASH
  {
    if t != [] {
      Doubled(t[1..]);
      assert !Paired(t);
    }
  }

  lemma {:induction false} AtLeast(a: Text, b: Text)
    requires AllUnits(a) && AllUnits(b) && AsciiText(a)
    ensures |Escape(a + b)| == |Escape(a)| + |Escape(b)|
  {
    hide EscapeUnit;
    if a == [] {
      assert a + b == b;
    } else {
      assert (a + b)[1..] == a[1..] + b && !Paired(a) && !Paired(a + b);
      AtLeast(a[1..], b);
    }
  }

  const LETTER_A := ['a' as int]

  /** An object whose one field, `a`, is the text. */
  function Sample(t: Text): Json {
    JObject(Member(LETTER_A, JString(t), NoMembers))
  }

  lemma OneFieldText(name: Text, t: Text)
    requires AllUnits(name) && AllUnits(t)
    ensures WellFormedMembers(Member(name, JString(t), NoMembers))
    ensures MembersText(Member(name, JString(t), NoMembers)) == Quoted(name) + [COLON] + Quoted(t)
  {
    hide Quoted;
  }

  lemma SampleShape(t: Text)
    requires AllUnits(t)
    ensures WellFormed(Sample(t))
    ensures var head := [OPEN_BRACE, QUOTE, 'a' as int, QUOTE, COLON, QUOTE];
            AsciiText(head) && Stringify(Sample(t)) == head + (Escape(t) + [QUOTE, CLOSE_BRACE])
  {
    assert Unescaped(LETTER_A);
    PlainEscape(LETTER_A);
    OneFieldText(LETTER_A, t);
    hide Escape, MembersText, WellFormedMembers;
    var text := Escape(t);
    assert Quoted(LETTER_A) == [QUOTE, 'a' as int, QUOTE] && Quoted(t) == [QUOTE] + text + [QUOTE];
    assert Stringify(Sample(t)) == [OPEN_BRACE] + MembersText(Sample(t).members) + [CLOSE_BRACE];
    hide Stringify, Quoted;
    Regroup(text);
  }

  lemma Regroup(text: Text)
    ensures [OPEN_BRACE] + ([QUOTE, 'a' as int, QUOTE] + [COLON] + ([QUOTE] + text + [QUOTE])) + [CLOSE_BRACE]
            == [OPEN_BRACE, QUOTE, 'a' as int, QUOTE, COLON, QUOTE] + (text + [QUOTE, CLOSE_BRACE])
  {
    var a, b := [QUOTE, 'a' as int, QUOTE] + [COLON], [QUOTE] + text + [QUOTE];
    assert [OPEN_BRACE] + (a + b) == ([OPEN_BRACE] + a) + b;
    assert [OPEN_BRACE] + a == [OPEN_BRACE, QUOTE, 'a' as int, QUOTE, COLON];
    assert b + [CLOSE_BRACE] == [QUOTE] + (text + [QUOTE, CLOSE_BRACE]);
  }

  lemma SampleLength(t: Text)
    requires AllUnits(t) && forall i :: 0 <= i < |t| ==> t[i] == QUOTE
    ensures WellFormed(Sample(t))
    ensures |Stringify(Sample(t))| == 2 * |t| + 8 && |Escape(Stringify(Sample(t)))| >= 4 * |t| + 8
  {
    var head, text, end := [OPEN_BRACE, QUOTE, 'a' as int, QUOTE, COLON, QUOTE], Escape(t), [QUOTE, CLOSE_BRACE];
    SampleShape(t);
    Doubled(t);
    Doubled(text);
    hide Stringify, Escape, Sample;
    AtLeast(head, text + end);
    AtLeast(text, end);
  }

  const BIG := Sample(Quotes(4092))

  const CART_ITEMS := Ascii("cart-items")

  lemma CartPath()
    ensures AllUnits(CART_ITEMS) && AllowedPath(Cart, CART_ITEMS) && Target(CART_ITEMS) && CART_ITEMS != EVIDENCE
  {
    assert CART_ITEMS in WRITES;
    assert CART_ITEMS[0] == 'c' as int && EVIDENCE[0] == 'e' as int;
  }

  lemma StableObject(v: Json)
    requires WellFormed(v) && v.JObject?
    ensures Stable(Stringify(v))
  {
    RoundTrip(v);
    hide Parse;
  }

  /** Under any key, the store accepts this body of 8192 units and writes a record it will
      refuse to read. */
  lemma TooBigToRead(key: Text)
    requires IsId(key)
    ensures WellFormed(BIG) && AllUnits(CART_ITEMS)
    ensures var r := MakeRecord(Cart, CART_ITEMS, Stringify(BIG), key, None);
            r.Some? && Storable(r.value) && ParseStored(Print(r.value)) == None
  {
    SampleLength(Quotes(4092));
    StableObject(BIG);
    CartPath();
    hide Stringify, IsUuid, Stable, Parse, Quotes, AllowedPath, Target, Ascii, Sample;
    var r := Stored(Cart, CART_ITEMS, key, Some(Stringify(BIG)), None);
    assert MakeRecord(Cart, CART_ITEMS, Stringify(BIG), key, None) == Some(r);
    hide MakeRecord;
    RecordBigger(r);
    PrintedRecord(r);
  }

  lemma RecordBigger(r: Stored)
    requires Storable(r) && r.body.Some?
    ensures |Print(r)| >= |Escape(StableBody(r))| + 10
  {
    RecordWellFormed(r);
    hide IsUuid, AllowedPath, Target, Stable, IncidentOk, IncidentMembers, Stringify, Escape, Digits;
    FieldUnits();
    var t := Tail(r);
    var b := Member(BODY, JString(r.body.value), t);
    var k := Member(KEY, JString(r.key), b);
    var p := Member(PATH, JString(r.path), k);
    var s := Member(SCOPE, JString(ScopeName(r.scope)), p);
    var v := Member(VERSION, ONE, s);
    assert RecordMembers(r) == v;
    assert WellFormedMembers(s) && WellFormedMembers(p) && WellFormedMembers(k) && WellFormedMembers(b);
    Bigger(VERSION, ONE, s);
    Bigger(SCOPE, JString(ScopeName(r.scope)), p);
    Bigger(PATH, JString(r.path), k);
    Bigger(KEY, JString(r.key), b);
    BiggerBody(r.body.value, t);
    ObjectBigger(v);
  }

  lemma Bigger(name: Text, value: Json, others: Members)
    requires WellFormedMembers(Member(name, value, others))
    ensures |MembersText(Member(name, value, others))| >= |MembersText(others)| + 2
  {
    hide Stringify, Escape;
  }

  lemma BiggerBody(body: Text, others: Members)
    requires WellFormedMembers(Member(BODY, JString(body), others))
    ensures AllUnits(body) && |MembersText(Member(BODY, JString(body), others))| >= |Escape(body)| + 5
  {
    hide Escape;
  }

  lemma ObjectBigger(m: Members)
    requires WellFormedMembers(m)
    ensures |Stringify(JObject(m))| == |MembersText(m)| + 2
  {
  }
}
