/**
 The browser's own reading of a registration row. `Load` is the chain of checks
 `loadSellerDraft` runs on the answer of GET /api/seller/registration; the
 theorems say which rows the server can reach it accepts.
 */
module SellerPreflight {
  import opened Wrappers
  import opened Utf16
  import opened SellerRows
  import opened SellerHandlers
  import opened SellerInvariants
  import opened SellerTheorems

  /** The reference tables the answer takes names from. */
  datatype Names = Names(categories: map<Guid, Text>, provinces: map<Guid, Text>, cities: map<Guid, Text>)

  datatype View = View(
    store: StoreFields, applicantType: Option<ApplicantType>, completedStep: int,
    identityStatus: Option<IdentityStatus>, nationalCodeMasked: Option<Text>, legalNationalId: Option<Text>,
    legalName: Option<Text>, representativeName: Option<Text>, representativePhone: Option<Text>,
    business: Business, categoryName: Option<Text>,
    activity: Activity, provinceName: Option<Text>, cityName: Option<Text>,
    additional: Additional, documentsRequired: bool,
    status: DraftStatus, revision: int, submittedAt: Option<Instant>, trackingCode: Option<Text>)

  function NameOf(names: map<Guid, Text>, id: Option<Guid>): Option<Text> {
    if id.Some? && id.value in names then Some(names[id.value]) else None
  }

  function MaskNationalCode(code: Option<Text>): Option<Text> {
    if code.Some? && |code.value| == 10 then Some(Ascii("******") + code.value[6..]) else None
  }

  /** GET /api/v1/seller/registration. */
  function ViewOf(row: Draft, names: Names): View {
    var a := row.applicant;
    View(a.store, a.applicantType, a.completedStep,
         a.identity.status, MaskNationalCode(a.identity.nationalCode), a.identity.legalNationalId,
         a.identity.legalName, a.identity.representativeName, a.identity.representativePhone,
         a.business, NameOf(names.categories, a.business.categoryId),
         a.activity, NameOf(names.provinces, a.activity.provinceId), NameOf(names.cities, a.activity.cityId),
         a.additional, false, row.status, row.revision, row.submission.submittedAt, row.submission.trackingCode)
  }

  datatype Answer = Status(code: int) | Body(view: View)
  datatype Preflight = SignedOut | FormUnavailable | New | Restored(view: View) | SubmittedApplication(view: View)

  // The checks, section by section, as the browser makes them.

  /** `value.trim()` is not empty. */
  predicate Visible(s: Text) { Trim(EcmaScript, s) != [] }

  predicate VisibleUpTo(s: Option<Text>, max: int) {
    s.Some? && Visible(s.value) && |s.value| <= max
  }

  predicate StepCheck(v: View) {
    && 1 <= v.completedStep <= 6
    && (v.completedStep < 2 ==> v.applicantType.None?)
    && (v.completedStep >= 2 ==> v.applicantType.Some?)
  }

  predicate MaskedCode(s: Text) {
    && |s| == 10 && (forall i :: 0 <= i < 6 ==> s[i] == '*' as int) && (forall i :: 6 <= i < 10 ==> IsDigit(s[i]))
  }

  predicate NoLegal(v: View) {
    v.legalNationalId.None? && v.legalName.None? && v.representativeName.None? && v.representativePhone.None?
  }

  predicate IdentityCheck(v: View) {
    if v.completedStep < 3 then v.identityStatus.None? && v.nationalCodeMasked.None? && NoLegal(v)
    else if v.applicantType == Some(NATURAL) then
      && v.identityStatus == Some(VERIFIED)
      && v.nationalCodeMasked.Some? && MaskedCode(v.nationalCodeMasked.value) && NoLegal(v)
    else
      && v.identityStatus == Some(RECORDED) && v.nationalCodeMasked.None?
      && v.legalNationalId.Some? && |v.legalNationalId.value| == 11 && AllDigits(v.legalNationalId.value)
      && v.legalName.Some? && v.legalName.value != []
      && v.representativeName.Some? && v.representativeName.value != []
      && v.representativePhone.Some? && IsMobile(v.representativePhone.value)
  }

  predicate KnownId(id: Option<Guid>) {
    id.Some? && IsUuid(id.value.text, 5)
  }

  predicate BusinessCheck(v: View) {
    if v.completedStep < 4 then v.business == NO_BUSINESS && v.categoryName.None?
    else
      && KnownId(v.business.categoryId) && VisibleUpTo(v.categoryName, 120)
      && VisibleUpTo(v.business.name, 180) && VisibleUpTo(v.business.description, 500)
      && v.business.phone.Some? && |v.business.phone.value| == 11 && AllDigits(v.business.phone.value)
      && v.business.phone.value[0] == '0' as int
      && v.business.offering.Some?
  }

  predicate ActivityCheck(v: View) {
    if v.completedStep < 5 then v.activity == NO_ACTIVITY && v.provinceName.None? && v.cityName.None?
    else
      && KnownId(v.activity.provinceId) && VisibleUpTo(v.provinceName, 120)
      && KnownId(v.activity.cityId) && VisibleUpTo(v.cityName, 120)
      && VisibleUpTo(v.activity.address, 500) && CoordinatesValid(v.activity.latitude, v.activity.longitude)
      && VisibleUpTo(v.activity.hours, 180)
      && v.activity.sellerDelivery.Some? && v.activity.pickup.Some?
      && (v.activity.sellerDelivery.value || v.activity.pickup.value)
      && VisibleUpTo(v.activity.serviceArea, 240)
  }

  /** `/[\u0000-\u001f\u007f]/` finds nothing. */
  predicate NoAsciiControl(s: Text) {
    forall i :: 0 <= i < |s| ==> !(0 <= s[i] < 0x20 || s[i] == 0x7F)
  }

  predicate OptionalText(s: Option<Text>, max: int) {
    s.Some? ==> VisibleUpTo(s, max) && NoAsciiControl(s.value)
  }

  predicate AdditionalCheck(v: View) {
    if v.completedStep < 6 then v.additional == NO_ADDITIONAL
    else
      && VisibleUpTo(v.additional.contactName, 120)
      && OptionalText(v.additional.contactRole, 120)
      && OptionalText(v.additional.websiteOrSocial, 300)
      && OptionalText(v.additional.businessEmail, 254)
      && (v.additional.backupPhone.Some? ==> IsMobile(v.additional.backupPhone.value))
      && VisibleUpTo(v.additional.responseHours, 180)
      && !v.documentsRequired
  }

  predicate IsUpperHex(u: int) { IsDigit(u) || 'A' as int <= u <= 'F' as int }

  predicate TrackingPattern(s: Text) {
    && |s| == 20 && s[..4] == Ascii("HNA-") && forall i :: 4 <= i < 20 ==> IsUpperHex(s[i])
  }

  predicate SubmissionCheck(v: View) {
    v.submittedAt.Some? && v.trackingCode.Some? && TrackingPattern(v.trackingCode.value)
  }

  function Load(answer: Answer): Preflight {
    match answer
    case Status(code) => if code == 401 then SignedOut else if code == 404 then New else FormUnavailable
    case Body(v) =>
      if v.revision < 1 || v.revision >= MAX_REVISION then FormUnavailable
      else if !StepCheck(v) then FormUnavailable
      else if !IdentityCheck(v) then FormUnavailable
      else if !BusinessCheck(v) then FormUnavailable
      else if !ActivityCheck(v) then FormUnavailable
      else if !AdditionalCheck(v) then FormUnavailable
      else if v.status.SUBMITTED? then
        if !SubmissionCheck(v) then FormUnavailable
        else SubmittedApplication(v.(completedStep := 6, documentsRequired := false))
      else Restored(v.(documentsRequired := false))
  }

  // What the server keeps in its rows.

  /** Text that went through the endpoints' cleaning. */
  predicate Cleaned(s: Option<Text>, max: int) {
    && s.Some? && 1 <= |s.value| <= max && NoControl(s.value)
    && !IsBlank(DotNet, s.value[0]) && !IsBlank(DotNet, s.value[|s.value| - 1])
  }

  predicate IdentityShape(a: Applicant) {
    if a.completedStep < 3 then a.identity == NO_IDENTITY
    else if a.applicantType == Some(NATURAL) then
      && a.identity == NO_IDENTITY.(status := Some(VERIFIED), nationalCode := a.identity.nationalCode)
      && a.identity.nationalCode.Some? && |a.identity.nationalCode.value| == 10 && AllDigits(a.identity.nationalCode.value)
    else
      && a.identity.status == Some(RECORDED) && a.identity.nationalCode.None?
      && a.identity.legalNationalId.Some?
      && |a.identity.legalNationalId.value| == 11 && AllDigits(a.identity.legalNationalId.value)
      && Cleaned(a.identity.legalName, 180) && Cleaned(a.identity.representativeName, 120)
      && a.identity.representativePhone.Some? && IsMobile(a.identity.representativePhone.value)
  }

  predicate BusinessShape(a: Applicant) {
    if a.completedStep < 4 then a.business == NO_BUSINESS
    else
      && a.business.categoryId.Some? && Cleaned(a.business.name, 180) && Cleaned(a.business.description, 500)
      && a.business.phone.Some? && |a.business.phone.value| == 11 && AllDigits(a.business.phone.value)
      && a.business.phone.value[0] == '0' as int && a.business.offering.Some?
  }

  predicate ActivityShape(a: Applicant) {
    if a.completedStep < 5 then a.activity == NO_ACTIVITY
    else
      && a.activity.provinceId.Some? && a.activity.cityId.Some?
      && Cleaned(a.activity.address, 500) && Cleaned(a.activity.hours, 180) && Cleaned(a.activity.serviceArea, 240)
      && CoordinatesValid(a.activity.latitude, a.activity.longitude)
      && a.activity.sellerDelivery.Some? && a.activity.pickup.Some?
      && (a.activity.sellerDelivery.value || a.activity.pickup.value)
  }

  predicate AdditionalShape(a: Applicant) {
    if a.completedStep < 6 then a.additional == NO_ADDITIONAL
    else
      && Cleaned(a.additional.contactName, 120) && Cleaned(a.additional.responseHours, 180)
      && (a.additional.contactRole.Some? ==> Cleaned(a.additional.contactRole, 120))
      && (a.additional.websiteOrSocial.Some? ==> Cleaned(a.additional.websiteOrSocial, 300))
      && (a.additional.businessEmail.Some? ==> Cleaned(a.additional.businessEmail, 254))
      && (a.additional.backupPhone.Some? ==> IsMobile(a.additional.backupPhone.value))
  }

  predicate ApplicantShape(a: Applicant) {
    && 1 <= a.completedStep <= 6 && (a.completedStep < 2 <==> a.applicantType.None?)
    && IdentityShape(a) && BusinessShape(a) && ActivityShape(a) && AdditionalShape(a)
  }

  predicate RowShape(row: Draft) {
    && ApplicantShape(row.applicant)
    && (row.status.SUBMITTED? ==>
        && row.applicant.completedStep == 6 && row.submission.submittedAt.Some?
        && row.submission.trackingCode.Some? && TrackingPattern(row.submission.trackingCode.value))
  }

  predicate RowsShaped(db: Db) {
    forall a <- db.drafts.Keys :: RowShape(db.drafts[a])
  }

  lemma {:induction false} HexTextPattern(bytes: seq<int>)
    requires forall i :: 0 <= i < |bytes| ==> 0 <= bytes[i] < 256
    ensures forall i :: 0 <= i < |HexText(bytes)| ==> IsUpperHex(HexText(bytes)[i])
  {
    if bytes != [] { HexTextPattern(bytes[1..]); }
  }

  lemma TrackingCodePattern(digest: Sha256)
    ensures TrackingPattern(TrackingCode(digest))
  {
    var hex := HexText(digest[..8]);
    HexTextPattern(digest[..8]);
    assert TrackingCode(digest) == Ascii("HNA-") + hex;
    forall i | 4 <= i < 20 ensures IsUpperHex(TrackingCode(digest)[i]) {
      assert TrackingCode(digest)[i] == hex[i - 4];
    }
  }

  lemma CleanTextIsCleaned(input: Option<Text>, max: nat)
    ensures CleanText(input, max).Some? ==> Cleaned(CleanText(input, max), max)
  {
  }

  // Every request keeps the shape of every row.

  /** One step rewrites one applicant. */
  lemma StepKeepsShape(db: Db, next: Db, a: Guid, now: Instant)
    requires RowsShaped(db) && DraftStep(db, next, a, now)
    requires next != db ==> a in next.drafts && ApplicantShape(next.drafts[a].applicant)
    ensures RowsShaped(next)
  {
    hide ApplicantShape;
    forall b | b in next.drafts.Keys ensures RowShape(next.drafts[b]) {
      if b != a { assert b in db.drafts.Keys; }
    }
  }

  lemma EarlySteps(db: Db, q: Request, now: Instant)
    requires (q.account in db.drafts ==> RowShape(db.drafts[q.account])) && (q.SaveStore? || q.SaveApplicantType? || q.VerifyNatural?)
    ensures var next := Handle(db, q, now).0;
            next != db ==> q.account in next.drafts && ApplicantShape(next.drafts[q.account].applicant)
  {
    hide Cleaned, CleanText, WeightedSum, CoordinatesValid;
  }

  lemma LegalStep(db: Db, q: Request, now: Instant)
    requires (q.account in db.drafts ==> RowShape(db.drafts[q.account])) && q.SaveLegal?
    ensures var next := Handle(db, q, now).0;
            next != db ==> q.account in next.drafts && ApplicantShape(next.drafts[q.account].applicant)
  {
    CleanTextIsCleaned(q.legalName, 180);
    CleanTextIsCleaned(q.representativeName, 120);
    hide Cleaned, CleanText, CoordinatesValid, IsMobile;
  }

  lemma BusinessStep(db: Db, q: Request, now: Instant)
    requires (q.account in db.drafts ==> RowShape(db.drafts[q.account])) && q.SaveBusiness?
    ensures var next := Handle(db, q, now).0;
            next != db ==> q.account in next.drafts && ApplicantShape(next.drafts[q.account].applicant)
  {
    CleanTextIsCleaned(q.name, 180);
    CleanTextIsCleaned(q.description, 500);
    hide Cleaned, CleanText, CoordinatesValid, IsMobile;
  }

  lemma ActivityStep(db: Db, q: Request, now: Instant)
    requires (q.account in db.drafts ==> RowShape(db.drafts[q.account])) && q.SaveActivity?
    ensures var next := Handle(db, q, now).0;
            next != db ==> q.account in next.drafts && ApplicantShape(next.drafts[q.account].applicant)
  {
    CleanTextIsCleaned(q.address, 500);
    CleanTextIsCleaned(q.hours, 180);
    CleanTextIsCleaned(q.serviceArea, 240);
    hide Cleaned, CleanText, CoordinatesValid, IsMobile;
  }

  lemma AdditionalStep(db: Db, q: Request, now: Instant)
    requires (q.account in db.drafts ==> RowShape(db.drafts[q.account])) && q.SaveAdditional?
    ensures var next := Handle(db, q, now).0;
            next != db ==> q.account in next.drafts && ApplicantShape(next.drafts[q.account].applicant)
  {
    CleanTextIsCleaned(q.contactName, 120);
    CleanTextIsCleaned(q.contactRole, 120);
    CleanTextIsCleaned(q.websiteOrSocial, 300);
    CleanTextIsCleaned(q.businessEmail, 254);
    CleanTextIsCleaned(q.responseHours, 180);
    hide Cleaned, CleanText, CoordinatesValid, IsMobile;
  }

  lemma DraftRequestShape(db: Db, q: Request, now: Instant)
    requires Inv(db) && RowsShaped(db) && IsDraftRequest(q)
    ensures RowsShaped(Handle(db, q, now).0)
  {
    RevisionRange(db, q.account);
    DraftRequestStep(db, q, now);
    hide Handle, Inv, ApplicantShape;
    assert q.account in db.drafts ==> q.account in db.drafts.Keys;
    match q
    case SaveLegal(_, _, _, _, _, _, _) => LegalStep(db, q, now);
    case SaveBusiness(_, _, _, _, _, _, _, _) => BusinessStep(db, q, now);
    case SaveActivity(_, _, _, _, _, _, _, _, _, _, _, _) => ActivityStep(db, q, now);
    case SaveAdditional(_, _, _, _, _, _, _, _, _) => AdditionalStep(db, q, now);
    case _ => EarlySteps(db, q, now);
    StepKeepsShape(db, Handle(db, q, now).0, q.account, now);
  }

  lemma SubmitShape(db: Db, q: Request, now: Instant)
    requires RowsShaped(db) && q.Submit?
    ensures RowsShaped(Handle(db, q, now).0)
  {
    TrackingCodePattern(q.digest);
    hide ApplicantShape, TrackingPattern, TrackingCode, TrackingCodeTaken;
    var next := Handle(db, q, now).0;
    forall b | b in next.drafts.Keys ensures RowShape(next.drafts[b]) {
      assert b in db.drafts.Keys && RowShape(db.drafts[b]);
    }
  }

  /** After submission requests touch no applicant or submission column. */
  lemma LaterRequestColumns(db: Db, q: Request, now: Instant, b: Guid)
    requires !IsDraftRequest(q) && !q.Submit?
    ensures var next := Handle(db, q, now).0;
            && (b in next.drafts <==> b in db.drafts)
            && (b in db.drafts ==>
                && next.drafts[b].applicant == db.drafts[b].applicant && next.drafts[b].status == db.drafts[b].status
                && next.drafts[b].submission == db.drafts[b].submission)
  {
    hide CleanText, First, HasActivation, AccessResponse;
  }

  lemma LaterRequestShape(db: Db, q: Request, now: Instant)
    requires RowsShaped(db) && !IsDraftRequest(q)
    ensures RowsShaped(Handle(db, q, now).0)
  {
    hide Handle, ApplicantShape, TrackingPattern;
    if q.Submit? {
      SubmitShape(db, q, now);
    } else {
      var next := Handle(db, q, now).0;
      forall b | b in next.drafts.Keys ensures RowShape(next.drafts[b]) {
        LaterRequestColumns(db, q, now, b);
        assert b in db.drafts.Keys && RowShape(db.drafts[b]);
      }
    }
  }

  lemma {:induction false} RunShape(run: Schedule)
    ensures RowsShaped(Run(EMPTY_DB, run))
  {
    hide RowsShaped, Handle, Inv;
    if run == [] {
      NoRowsShaped();
    } else {
      var last := |run| - 1;
      RunShape(run[..last]);
      EveryRunKeeps(run[..last]);
      var db := Run(EMPTY_DB, run[..last]);
      if IsDraftRequest(run[last].0) {
        DraftRequestShape(db, run[last].0, run[last].1);
      } else {
        LaterRequestShape(db, run[last].0, run[last].1);
      }
    }
  }

  lemma NoRowsShaped()
    ensures RowsShaped(EMPTY_DB)
  {
  }

  // What the browser makes of a reachable row.

  /** A reference row exists, its id is one the browser recognises, and its name is usable. */
  predicate Named(id: Option<Guid>, names: map<Guid, Text>) {
    KnownId(id) && VisibleUpTo(NameOf(names, id), 120)
  }

  predicate VisibleIfGiven(s: Option<Text>) {
    s.Some? ==> Visible(s.value)
  }

  /** The condition under which the browser accepts a row: the references resolve, the
      revision still fits, and no text is made only of what ECMAScript calls white space. */
  predicate Readable(row: Draft, names: Names) {
    var a := row.applicant;
    && row.revision < MAX_REVISION
    && (a.completedStep >= 4 ==>
        Named(a.business.categoryId, names.categories)
        && VisibleIfGiven(a.business.name) && VisibleIfGiven(a.business.description))
    && (a.completedStep >= 5 ==>
        Named(a.activity.provinceId, names.provinces) && Named(a.activity.cityId, names.cities)
        && VisibleIfGiven(a.activity.address) && VisibleIfGiven(a.activity.hours) && VisibleIfGiven(a.activity.serviceArea))
    && (a.completedStep >= 6 ==>
        VisibleIfGiven(a.additional.contactName) && VisibleIfGiven(a.additional.responseHours)
        && VisibleIfGiven(a.additional.contactRole) && VisibleIfGiven(a.additional.websiteOrSocial)
        && VisibleIfGiven(a.additional.businessEmail))
  }

  lemma IdentityAccepted(row: Draft, names: Names)
    requires RowShape(row)
    ensures StepCheck(ViewOf(row, names)) && IdentityCheck(ViewOf(row, names))
  {
    hide BusinessShape, ActivityShape, AdditionalShape, TrackingPattern;
    var code := row.applicant.identity.nationalCode;
    if code.Some? && |code.value| == 10 {
      var masked := MaskNationalCode(code).value;
      assert forall i :: 6 <= i < 10 ==> masked[i] == code.value[i];
    }
  }

  lemma BusinessAccepted(row: Draft, names: Names)
    requires RowShape(row)
    ensures BusinessCheck(ViewOf(row, names)) <==>
      (row.applicant.completedStep >= 4 ==>
        Named(row.applicant.business.categoryId, names.categories)
        && VisibleIfGiven(row.applicant.business.name) && VisibleIfGiven(row.applicant.business.description))
  {
    hide IdentityShape, ActivityShape, AdditionalShape, Visible, KnownId, TrackingPattern;
  }

  lemma ActivityAccepted(row: Draft, names: Names)
    requires RowShape(row)
    ensures ActivityCheck(ViewOf(row, names)) <==>
      (row.applicant.completedStep >= 5 ==>
        var a := row.applicant.activity;
        Named(a.provinceId, names.provinces) && Named(a.cityId, names.cities)
        && VisibleIfGiven(a.address) && VisibleIfGiven(a.hours) && VisibleIfGiven(a.serviceArea))
  {
    hide IdentityShape, BusinessShape, AdditionalShape, Visible, KnownId, TrackingPattern, CoordinatesValid;
  }

  lemma AdditionalAccepted(row: Draft, names: Names)
    requires RowShape(row)
    ensures AdditionalCheck(ViewOf(row, names)) <==>
      (row.applicant.completedStep >= 6 ==>
        var a := row.applicant.additional;
        VisibleIfGiven(a.contactName) && VisibleIfGiven(a.responseHours)
        && VisibleIfGiven(a.contactRole) && VisibleIfGiven(a.websiteOrSocial) && VisibleIfGiven(a.businessEmail))
  {
    hide IdentityShape, BusinessShape, ActivityShape, Visible, TrackingPattern;
  }

  /** The browser accepts a row the server can reach exactly when the row is readable, and
      then as what it is: a draft is restored, a submitted application is shown, with
      every field as the server sent it. */
  lemma ReachableRowsLoad(run: Schedule, a: Guid, names: Names)
    requires a in Run(EMPTY_DB, run).drafts
    ensures var row := Run(EMPTY_DB, run).drafts[a];
            Load(Body(ViewOf(row, names))) ==
            if !Readable(row, names) then FormUnavailable
            else if row.status.SUBMITTED? then SubmittedApplication(ViewOf(row, names))
            else Restored(ViewOf(row, names))
    ensures Run(EMPTY_DB, run).drafts[a].status.SUBMITTED? ==> Run(EMPTY_DB, run).drafts[a].applicant.completedStep == 6
  {
    hide Run, Inv, IdentityCheck, BusinessCheck, ActivityCheck, AdditionalCheck, ApplicantShape, StepCheck,
      TrackingPattern, VisibleIfGiven, Named;
    var row := Run(EMPTY_DB, run).drafts[a];
    RunShape(run);
    EveryRunKeeps(run);
    RevisionRange(Run(EMPTY_DB, run), a);
    assert a in Run(EMPTY_DB, run).drafts.Keys && RowShape(row);
    IdentityAccepted(row, names);
    BusinessAccepted(row, names);
    ActivityAccepted(row, names);
    AdditionalAccepted(row, names);
  }

  const BYTE_ORDER_MARK := 0xFEFF

  /** The two platforms disagree on cleaned text only when it starts and ends with a byte
      order mark, which .NET keeps and ECMAScript trims away. */
  lemma InvisibleCleanedText(s: Option<Text>, max: int)
    requires Cleaned(s, max)
    ensures !Visible(s.value) ==> s.value[0] == BYTE_ORDER_MARK && s.value[|s.value| - 1] == BYTE_ORDER_MARK
  {
    TrimEnds(EcmaScript, s.value);
  }

  // A business called "\uFEFF": every server rule accepts it, the browser does not.

  const SOMEONE := Guid(Ascii("11111111-1111-4111-8111-111111111111"))
  const SHOES := Guid(Ascii("22222222-2222-4222-8222-222222222222"))
  const LETTER: Text := Ascii("a")
  const PHONE: Text := Ascii("09120000000")

  const CREATE := SaveStore(SOMEONE, Some(0), Some(PerField(LETTER, LETTER, PHONE, LETTER, LETTER, LETTER)), true)
  const CHOOSE := SaveApplicantType(SOMEONE, 1, Some(LEGAL))
  const IDENTIFY := SaveLegal(SOMEONE, 2, PHONE, Some(LETTER), Some(LETTER), PHONE, true)
  const DESCRIBE := SaveBusiness(SOMEONE, 3, SHOES, Some([BYTE_ORDER_MARK]), Some(LETTER), PHONE, Some(GOOD), true)
  const INVISIBLE_RUN: Schedule := [(CREATE, 0)] + [(CHOOSE, 0)] + [(IDENTIFY, 0)] + [(DESCRIBE, 0)]

  lemma RunAppend(db: Db, run: Schedule, step: (Request, Instant))
    ensures Run(db, run + [step]) == Handle(Run(db, run), step.0, step.1).0
  {
    assert (run + [step])[..|run|] == run;
  }

  lemma OneUnitText(u: int, max: nat)
    requires !IsBlank(DotNet, u) && !IsControl(u) && max >= 1
    ensures CleanText(Some([u]), max) == Some([u])
  {
    TrimVisible(DotNet, [u]);
  }

  lemma InvisibleRunStored()
    ensures var db := Run(EMPTY_DB, INVISIBLE_RUN);
            && SOMEONE in db.drafts && db.drafts[SOMEONE].applicant.completedStep == 4
            && db.drafts[SOMEONE].applicant.business.categoryId == Some(SHOES)
            && db.drafts[SOMEONE].applicant.business.name == Some([BYTE_ORDER_MARK])
  {
    OneUnitText(LETTER[0], 180);
    OneUnitText(LETTER[0], 120);
    OneUnitText(LETTER[0], 500);
    OneUnitText(BYTE_ORDER_MARK, 180);
    RunAppend(EMPTY_DB, [], (CREATE, 0));
    assert [] + [(CREATE, 0)] == [(CREATE, 0)];
    RunAppend(EMPTY_DB, [(CREATE, 0)], (CHOOSE, 0));
    RunAppend(EMPTY_DB, [(CREATE, 0)] + [(CHOOSE, 0)], (IDENTIFY, 0));
    RunAppend(EMPTY_DB, [(CREATE, 0)] + [(CHOOSE, 0)] + [(IDENTIFY, 0)], (DESCRIBE, 0));
    hide Run;
    var one := Handle(EMPTY_DB, CREATE, 0).0;
    var two := Handle(one, CHOOSE, 0).0;
    assert two.drafts[SOMEONE].revision == 2 && two.drafts[SOMEONE].applicant.applicantType == Some(LEGAL);
    var three := Handle(two, IDENTIFY, 0).0;
    assert three.drafts[SOMEONE].revision == 3 && three.drafts[SOMEONE].applicant.completedStep == 3;
    assert SHOES.text[0] == '2' as int && EMPTY_GUID.text[0] == '0' as int;
    assert PHONE[0] == '0' as int && AllDigits(PHONE);
  }

  /** So not every reachable row is readable: this run stores such a row, with its category
      present and properly named, and the browser reports the whole registration as unavailable. */
  lemma InvisibleNameIsUnreadable()
    ensures var db := Run(EMPTY_DB, INVISIBLE_RUN);
            && SOMEONE in db.drafts
            && var names := Names(map[SHOES := LETTER], map[], map[]);
            && Named(db.drafts[SOMEONE].applicant.business.categoryId, names.categories)
            && Load(Body(ViewOf(db.drafts[SOMEONE], names))) == FormUnavailable
  {
    hide Run, Load;
    InvisibleRunStored();
    ReachableRowsLoad(INVISIBLE_RUN, SOMEONE, Names(map[SHOES := LETTER], map[], map[]));
    TrimEnds(EcmaScript, [BYTE_ORDER_MARK]);
    TrimVisible(EcmaScript, LETTER);
  }
}
