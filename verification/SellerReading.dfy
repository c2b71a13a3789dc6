/** What the browser takes for a registration, whatever answer it is given, and what it shows. */
module SellerReading {
  import opened Wrappers
  import opened Utf16
  import opened SellerRows
  import opened SellerHandlers
  import opened SellerEffects
  import opened SellerPreflight

  /** Only 401 means signed out and only 404 means there is no registration yet. */
  lemma StatusesRead(code: int)
    ensures Load(Status(code)).SignedOut? <==> code == 401
    ensures Load(Status(code)).New? <==> code == 404
    ensures code != 401 && code != 404 ==> Load(Status(code)).FormUnavailable?
  {
  }

  /** Text of at most `max` units that is not all white space to ECMAScript. */
  predicate Legible(s: Option<Text>, max: int) {
    s.Some? && |s.value| <= max && !AllBlank(EcmaScript, s.value)
  }

  predicate LegibleLine(s: Option<Text>, max: int) {
    Legible(s, max) && forall i :: 0 <= i < |s.value| ==> !(0 <= s.value[i] <= 0x1F) && s.value[i] != 0x7F
  }

  predicate Identifier(id: Option<Guid>) {
    id.Some? && IsUuid(id.value.text, 5)
  }

  /** Six stars and the last four digits. */
  predicate Masked(s: Text) {
    && |s| == 10 && (forall i :: 0 <= i < 6 ==> s[i] == '*' as int)
    && (forall i :: 6 <= i < 10 ==> '0' as int <= s[i] <= '9' as int)
  }

  /** Each identity field is present exactly for the kind of applicant it belongs to, from step 3. */
  predicate IdentityFits(v: View) {
    var natural, legal := v.completedStep >= 3 && v.applicantType == Some(NATURAL), v.completedStep >= 3 && v.applicantType == Some(LEGAL);
    && v.identityStatus == (if natural then Some(VERIFIED) else if legal then Some(RECORDED) else None)
    && (v.nationalCodeMasked.Some? <==> natural) && (natural ==> Masked(v.nationalCodeMasked.value))
    && (v.legalNationalId.Some? <==> legal) && (legal ==> ElevenDigits(v.legalNationalId.value))
    && (v.legalName.Some? <==> legal) && (legal ==> v.legalName.value != [])
    && (v.representativeName.Some? <==> legal) && (legal ==> v.representativeName.value != [])
    && (v.representativePhone.Some? <==> legal) && (legal ==> MobileNumber(v.representativePhone.value))
  }

  /** The business fields are present exactly from step 4 on. */
  predicate BusinessFits(v: View) {
    var from, b := v.completedStep >= 4, v.business;
    && (b.categoryId.Some? <==> from) && (from ==> Identifier(b.categoryId))
    && (v.categoryName.Some? <==> from) && (from ==> Legible(v.categoryName, 120))
    && (b.name.Some? <==> from) && (from ==> Legible(b.name, 180))
    && (b.description.Some? <==> from) && (from ==> Legible(b.description, 500))
    && (b.phone.Some? <==> from) && (from ==> ElevenDigits(b.phone.value) && b.phone.value[0] == '0' as int)
    && (b.offering.Some? <==> from)
  }

  /** The activity fields are present exactly from step 5 on; coordinates may be left out. */
  predicate ActivityFits(v: View) {
    var from, a := v.completedStep >= 5, v.activity;
    && (a.provinceId.Some? <==> from) && (from ==> Identifier(a.provinceId))
    && (v.provinceName.Some? <==> from) && (from ==> Legible(v.provinceName, 120))
    && (a.cityId.Some? <==> from) && (from ==> Identifier(a.cityId))
    && (v.cityName.Some? <==> from) && (from ==> Legible(v.cityName, 120))
    && (a.address.Some? <==> from) && (from ==> Legible(a.address, 500))
    && (a.latitude.Some? ==> from) && OnGlobe(a.latitude, a.longitude)
    && (a.hours.Some? <==> from) && (from ==> Legible(a.hours, 180))
    && (a.sellerDelivery.Some? <==> from) && (a.pickup.Some? <==> from)
    && (from ==> a.sellerDelivery.value || a.pickup.value)
    && (a.serviceArea.Some? <==> from) && (from ==> Legible(a.serviceArea, 240))
  }

  /** The contact fields appear at step 6; some of them may be left out. */
  predicate AdditionalFits(v: View) {
    var from, x := v.completedStep >= 6, v.additional;
    && (x.contactName.Some? <==> from) && (from ==> Legible(x.contactName, 120))
    && (x.responseHours.Some? <==> from) && (from ==> Legible(x.responseHours, 180))
    && (x.contactRole.Some? ==> from && LegibleLine(x.contactRole, 120))
    && (x.websiteOrSocial.Some? ==> from && LegibleLine(x.websiteOrSocial, 300))
    && (x.businessEmail.Some? ==> from && LegibleLine(x.businessEmail, 254))
    && (x.backupPhone.Some? ==> from && MobileNumber(x.backupPhone.value))
    && (from ==> !v.documentsRequired)
  }

  predicate SubmissionFits(v: View) {
    v.status.SUBMITTED? ==>
      && v.submittedAt.Some? && v.trackingCode.Some?
      && |v.trackingCode.value| == 20 && v.trackingCode.value[..4] == ['H' as int, 'N' as int, 'A' as int, '-' as int]
      && forall i :: 4 <= i < 20 ==>
           '0' as int <= v.trackingCode.value[i] <= '9' as int || 'A' as int <= v.trackingCode.value[i] <= 'F' as int
  }

  /** Everything the form relies on once an answer was taken. */
  predicate AnswerFits(v: View) {
    && 1 <= v.revision < INT_MAX && 1 <= v.completedStep <= 6 && (v.applicantType.Some? <==> v.completedStep >= 2)
    && IdentityFits(v) && BusinessFits(v) && ActivityFits(v) && AdditionalFits(v) && SubmissionFits(v)
  }

  lemma DigitsRead(s: Text)
    ensures |s| == 11 && AllDigits(s) <==> ElevenDigits(s)
    ensures IsMobile(s) <==> MobileNumber(s)
    ensures MaskedCode(s) <==> Masked(s)
  {
  }

  lemma IdentityRead(v: View)
    requires 1 <= v.completedStep <= 6 && (v.applicantType.Some? <==> v.completedStep >= 2)
    ensures IdentityCheck(v) <==> IdentityFits(v)
  {
    if v.nationalCodeMasked.Some? { DigitsRead(v.nationalCodeMasked.value); }
    if v.legalNationalId.Some? { DigitsRead(v.legalNationalId.value); }
    if v.representativePhone.Some? { DigitsRead(v.representativePhone.value); }
    hide MaskedCode, Masked, AllDigits, ElevenDigits, IsMobile, MobileNumber;
    assert v.applicantType.Some? ==> v.applicantType.value.NATURAL? || v.applicantType.value.LEGAL?;
  }

  lemma LegibleRead(s: Option<Text>, max: int)
    ensures VisibleUpTo(s, max) <==> Legible(s, max)
    ensures s.Some? ==> (OptionalText(s, max) <==> LegibleLine(s, max))
  {
    if s.Some? { TrimEnds(EcmaScript, s.value); }
    hide Trim;
  }

  lemma BusinessRead(v: View)
    ensures BusinessCheck(v) <==> BusinessFits(v)
  {
    LegibleRead(v.categoryName, 120);
    LegibleRead(v.business.name, 180);
    LegibleRead(v.business.description, 500);
    if v.business.phone.Some? { DigitsRead(v.business.phone.value); }
    var b := v.business;
    assert b == Business(b.categoryId, b.name, b.description, b.phone, b.offering);
    assert Legible(v.categoryName, 120) ==> v.categoryName.Some?;
    hide VisibleUpTo, Legible, IsUuid, AllDigits, ElevenDigits;
  }

  lemma ActivityRead(v: View)
    ensures ActivityCheck(v) <==> ActivityFits(v)
  {
    LegibleRead(v.provinceName, 120);
    LegibleRead(v.cityName, 120);
    LegibleRead(v.activity.address, 500);
    LegibleRead(v.activity.hours, 180);
    LegibleRead(v.activity.serviceArea, 240);
    var a := v.activity;
    assert a == Activity(a.provinceId, a.cityId, a.address, a.latitude, a.longitude, a.hours, a.sellerDelivery,
                         a.pickup, a.serviceArea);
    assert forall s, n :: Legible(s, n) ==> s.Some?;
    hide VisibleUpTo, Legible, IsUuid;
  }

  lemma AdditionalRead(v: View)
    requires v.completedStep <= 6
    ensures AdditionalCheck(v) <==> AdditionalFits(v)
  {
    var x := v.additional;
    LegibleRead(x.contactName, 120);
    LegibleRead(x.responseHours, 180);
    LegibleRead(x.contactRole, 120);
    LegibleRead(x.websiteOrSocial, 300);
    LegibleRead(x.businessEmail, 254);
    if x.backupPhone.Some? { DigitsRead(x.backupPhone.value); }
    assert x == Additional(x.contactName, x.contactRole, x.backupPhone, x.websiteOrSocial, x.businessEmail, x.responseHours);
    assert forall s, n :: Legible(s, n) ==> s.Some?;
    assert forall n :: OptionalText(None, n);
    hide VisibleUpTo, Legible, LegibleLine, OptionalText, IsMobile, MobileNumber;
  }

  lemma SubmissionRead(v: View)
    ensures v.status.SUBMITTED? ==> (SubmissionCheck(v) <==> SubmissionFits(v))
    ensures !v.status.SUBMITTED? ==> SubmissionFits(v)
  {
    assert Ascii("HNA-") == ['H' as int, 'N' as int, 'A' as int, '-' as int];
  }

  /** The browser takes an answer exactly when every field fits the step it belongs to, as a
      draft or as a submitted application; a submitted one is always shown as complete. */
  lemma AnswersRead(v: View)
    ensures Load(Body(v)) ==
            if !AnswerFits(v) then FormUnavailable
            else if v.status.SUBMITTED? then SubmittedApplication(v.(completedStep := 6, documentsRequired := false))
            else Restored(v.(documentsRequired := false))
  {
    if 1 <= v.completedStep <= 6 && (v.applicantType.Some? <==> v.completedStep >= 2) {
      IdentityRead(v);
      BusinessRead(v);
      ActivityRead(v);
      AdditionalRead(v);
      SubmissionRead(v);
    }
    hide IdentityCheck, BusinessCheck, ActivityCheck, AdditionalCheck, SubmissionCheck;
    hide IdentityFits, BusinessFits, ActivityFits, AdditionalFits, SubmissionFits;
  }

  /** Every field of the answer is the row's column of that name; of a national code only the
      last four digits are sent, and names are looked up by the identifier they belong to. */
  lemma ViewShowsRow(row: Draft, names: Names)
    ensures var v, a := ViewOf(row, names), row.applicant;
            && v.store == a.store && v.applicantType == a.applicantType && v.completedStep == a.completedStep
            && v.identityStatus == a.identity.status && v.legalNationalId == a.identity.legalNationalId
            && v.legalName == a.identity.legalName && v.representativeName == a.identity.representativeName
            && v.representativePhone == a.identity.representativePhone
            && v.business == a.business && v.activity == a.activity && v.additional == a.additional
            && v.status == row.status && v.revision == row.revision && !v.documentsRequired
            && v.submittedAt == row.submission.submittedAt && v.trackingCode == row.submission.trackingCode
    ensures var code, sent := row.applicant.identity.nationalCode, ViewOf(row, names).nationalCodeMasked;
            if code.Some? && |code.value| == 10 then
              && sent.Some? && |sent.value| == 10
              && (forall i :: 0 <= i < 10 ==> sent.value[i] == if i < 6 then '*' as int else code.value[i])
            else sent.None?
    ensures var v, a := ViewOf(row, names), row.applicant;
            && Resolves(names.categories, a.business.categoryId, v.categoryName)
            && Resolves(names.provinces, a.activity.provinceId, v.provinceName)
            && Resolves(names.cities, a.activity.cityId, v.cityName)
  {
    var code := row.applicant.identity.nationalCode;
    if code.Some? && |code.value| == 10 {
      var masked := MaskNationalCode(code).value;
      assert masked[..6] == Ascii("******") && masked[6..] == code.value[6..];
      forall i | 0 <= i < 10 ensures masked[i] == if i < 6 then '*' as int else code.value[i] {
        if i >= 6 { assert masked[i] == masked[6..][i - 6]; }
      }
    }
  }

  predicate Resolves(names: map<Guid, Text>, id: Option<Guid>, name: Option<Text>) {
    name == if id.Some? && id.value in names then Some(names[id.value]) else None
  }
}
