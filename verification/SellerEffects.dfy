/**
 What every request is answered with and what it stores, column by column, in terms of the
 request's own fields and the tables before it.
 */
module SellerEffects {
  import opened Wrappers
  import opened Utf16
  import opened SellerRows
  import opened SellerHandlers
  import opened SellerInvariants

  const INT_MAX := 0x7FFF_FFFF

  /** The revision a client may send: at least 1, and not the last 32-bit integer, which has
      no successor. */
  predicate Revision(r: int) {
    r >= 1 && r != INT_MAX
  }

  /** A draft of this account waits at one of these steps, at this revision. */
  predicate AtStep(db: Db, a: Guid, low: int, high: int, revision: int) {
    && a in db.drafts && db.drafts[a].status == DRAFT && db.drafts[a].revision == revision
    && low <= db.drafts[a].applicant.completedStep <= high
  }

  /** Every table but the drafts, and every draft but this one, is as it was. */
  predicate OnlyDraft(db: Db, next: Db, a: Guid) {
    && next.reviews == db.reviews && next.amendments == db.amendments && next.activations == db.activations
    && next.suspensions == db.suspensions && next.sellers == db.sellers
    && OtherDrafts(db, next, a)
  }

  predicate OtherDrafts(db: Db, next: Db, a: Guid) {
    && a in next.drafts && next.drafts.Keys == db.drafts.Keys + {a}
    && (forall b :: b in db.drafts && b != a ==> next.drafts[b] == db.drafts[b])
  }

  /** One draft went on by one revision; of its columns only the applicant's changed, and the
      answer names the revision it now has. */
  predicate Wrote(db: Db, next: Db, a: Guid, now: Instant, r: Response) {
    && a in db.drafts && OnlyDraft(db, next, a)
    && var x, y := db.drafts[a], next.drafts[a];
       && r == Saved(y.revision) && y.revision == x.revision + 1 && y.updatedAt == now
       && y.status == x.status && y.submission == x.submission && y.review == x.review && y.activation == x.activation
  }

  predicate ElevenDigits(s: Text) {
    |s| == 11 && forall i :: 0 <= i < 11 ==> '0' as int <= s[i] <= '9' as int
  }

  predicate MobileNumber(s: Text) {
    ElevenDigits(s) && s[0] == '0' as int && s[1] == '9' as int
  }

  /** A field that may be left out, but not filled with text that cleans to nothing. */
  predicate OptionalClean(value: Option<Text>, max: nat) {
    value.None? || CleanText(value, max).Some?
  }

  // The seven steps of the registration.

  predicate StoreValid(q: Request)
    requires q.SaveStore?
  {
    q.expected.Some? && q.expected.value >= 0 && q.expected.value != INT_MAX && q.fields.Some? && q.phoneMatches
  }

  /** Creating the registration, at revision 0, or editing its first step. */
  lemma StoreStored(db: Db, q: Request, now: Instant)
    requires q.SaveStore?
    ensures var (next, r) := Handle(db, q, now); var a := q.account;
            && (r == Invalid <==> !StoreValid(q))
            && (r.Saved? <==> (StoreValid(q)
                               && if q.expected.value == 0 then a !in db.drafts else AtStep(db, a, 1, 1, q.expected.value)))
            && (r == Invalid || r.Saved? || r == Conflict) && (!r.Saved? ==> next == db)
    ensures var (next, r) := Handle(db, q, now); var a := q.account;
            r.Saved? && q.expected.value == 0 ==>
              && OnlyDraft(db, next, a) && r == Saved(1)
              && next.drafts[a] == Draft(
                   Applicant(q.fields.value, None, Identity(None, None, None, None, None, None),
                             Business(None, None, None, None, None),
                             Activity(None, None, None, None, None, None, None, None, None),
                             Additional(None, None, None, None, None, None), 1),
                   DRAFT, 1, Submission(None, None, None, None, None), Review(None, None, None, None), Activation(None, None), now)
    ensures var (next, r) := Handle(db, q, now); var a := q.account;
            r.Saved? && q.expected.value != 0 ==>
              Wrote(db, next, a, now, r)
              && next.drafts[a].applicant == db.drafts[a].applicant.(store := q.fields.value)
  {
  }

  /** Choosing the type of applicant erases every identity column. */
  lemma ApplicantTypeStored(db: Db, q: Request, now: Instant)
    requires q.SaveApplicantType?
    ensures var (next, r) := Handle(db, q, now); var a := q.account;
            && (r == Invalid <==> !Revision(q.revision) || q.applicantType.None?)
            && (r.Saved? <==> Revision(q.revision) && q.applicantType.Some? && AtStep(db, a, 1, 2, q.revision))
            && (r == Invalid || r.Saved? || r == Conflict) && (!r.Saved? ==> next == db)
            && (r.Saved? ==>
                && Wrote(db, next, a, now, r)
                && next.drafts[a].applicant == db.drafts[a].applicant.(
                     applicantType := q.applicantType, completedStep := 2,
                     identity := Identity(None, None, None, None, None, None)))
  {
  }

  /** The weights 10, 9, ..., 2 over the first nine digits. */
  function Weighted(s: Text): int
    requires |s| == 10
  {
    10 * (s[0] - 48) + 9 * (s[1] - 48) + 8 * (s[2] - 48) + 7 * (s[3] - 48) + 6 * (s[4] - 48)
    + 5 * (s[5] - 48) + 4 * (s[6] - 48) + 3 * (s[7] - 48) + 2 * (s[8] - 48)
  }

  /** With the last digit the sum is divisible by eleven, a check digit of ten being written
      as one. */
  predicate CheckDigitFits(sum: int, last: int) {
    if sum % 11 == 1 then last == 1 else (sum + last) % 11 == 0
  }

  predicate NationalCode(s: Text) {
    && |s| == 10 && (forall i :: 0 <= i < 10 ==> 48 <= s[i] <= 57)
    && (exists i :: 1 <= i < 10 && s[i] != s[0]) && CheckDigitFits(Weighted(s), s[9] - 48)
  }

  lemma SumUnrolled(s: Text)
    requires |s| == 10
    ensures WeightedSum(s, 9) == Weighted(s)
  {
    assert WeightedSum(s, 0) == 0;
    assert WeightedSum(s, 1) == 10 * (s[0] - 48);
    assert WeightedSum(s, 2) == WeightedSum(s, 1) + 9 * (s[1] - 48);
    assert WeightedSum(s, 3) == WeightedSum(s, 2) + 8 * (s[2] - 48);
    assert WeightedSum(s, 4) == WeightedSum(s, 3) + 7 * (s[3] - 48);
    assert WeightedSum(s, 5) == WeightedSum(s, 4) + 6 * (s[4] - 48);
    assert WeightedSum(s, 6) == WeightedSum(s, 5) + 5 * (s[5] - 48);
    assert WeightedSum(s, 7) == WeightedSum(s, 6) + 4 * (s[6] - 48);
    assert WeightedSum(s, 8) == WeightedSum(s, 7) + 3 * (s[7] - 48);
    assert WeightedSum(s, 9) == WeightedSum(s, 8) + 2 * (s[8] - 48);
  }

  lemma CheckDigit(sum: int, last: int)
    requires 0 <= last <= 9
    ensures (last == if sum % 11 < 2 then sum % 11 else 11 - sum % 11) <==> CheckDigitFits(sum, last)
  {
  }

  /** The national codes the server takes. */
  lemma NationalCodeDigits(s: Text)
    ensures IsNationalCode(s) <==> NationalCode(s)
  {
    if |s| == 10 {
      SumUnrolled(s);
      hide WeightedSum, Weighted, CheckDigitFits;
      if AllDigits(s) { CheckDigit(Weighted(s), s[9] - 48); }
    }
  }

  predicate NaturalValid(q: Request)
    requires q.VerifyNatural?
  {
    Revision(q.revision) && NationalCode(q.nationalCode) && q.phoneVerified
  }

  predicate NaturalReady(db: Db, q: Request)
    requires q.VerifyNatural?
  {
    AtStep(db, q.account, 2, 2, q.revision) && db.drafts[q.account].applicant.applicantType == Some(NATURAL)
  }

  /** A natural person's national code is stored only when the verifier matched it. */
  lemma NaturalStored(db: Db, q: Request, now: Instant)
    requires q.VerifyNatural?
    ensures var (next, r) := Handle(db, q, now); var a := q.account;
            && (!NaturalValid(q) ==> r == Invalid)
            && (NaturalValid(q) && a !in db.drafts ==> r == NotFound)
            && (NaturalValid(q) && a in db.drafts && !NaturalReady(db, q) ==> r == Conflict)
            && (NaturalValid(q) && NaturalReady(db, q) ==>
                  match q.verdict
                  case Matched => r.Saved?
                  case NotMatched => r == Invalid
                  case VerifierUnavailable => r == Unavailable)
            && (!r.Saved? ==> next == db)
            && (r.Saved? ==>
                && Wrote(db, next, a, now, r)
                && var x, y := db.drafts[a].applicant, next.drafts[a].applicant;
                   && y == x.(identity := y.identity, completedStep := 3)
                   && y.identity.nationalCode == Some(q.nationalCode) && y.identity.status == Some(VERIFIED)
                   && y.identity.legalNationalId == x.identity.legalNationalId && y.identity.legalName == x.identity.legalName
                   && y.identity.representativeName == x.identity.representativeName
                   && y.identity.representativePhone == x.identity.representativePhone)
  {
    NationalCodeDigits(q.nationalCode);
    hide IsNationalCode, NationalCode;
  }

  predicate LegalValid(q: Request)
    requires q.SaveLegal?
  {
    && Revision(q.revision) && ElevenDigits(q.legalNationalId) && MobileNumber(q.representativePhone)
    && CleanText(q.legalName, 180).Some? && CleanText(q.representativeName, 120).Some? && q.phoneMatches
  }

  /** A legal person's identity is recorded, each field in its own column. */
  lemma LegalStored(db: Db, q: Request, now: Instant)
    requires q.SaveLegal?
    ensures var (next, r) := Handle(db, q, now); var a := q.account;
            && (r == Invalid <==> !LegalValid(q))
            && (r.Saved? <==> LegalValid(q) && AtStep(db, a, 2, 2, q.revision)
                              && db.drafts[a].applicant.applicantType == Some(LEGAL))
            && (r == Invalid || r.Saved? || r == Conflict) && (!r.Saved? ==> next == db)
            && (r.Saved? ==>
                && Wrote(db, next, a, now, r)
                && var x, y := db.drafts[a].applicant, next.drafts[a].applicant;
                   && y == x.(identity := y.identity, completedStep := 3)
                   && y.identity.legalNationalId == Some(q.legalNationalId)
                   && y.identity.legalName == CleanText(q.legalName, 180)
                   && y.identity.representativeName == CleanText(q.representativeName, 120)
                   && y.identity.representativePhone == Some(q.representativePhone)
                   && y.identity.status == Some(RECORDED) && y.identity.nationalCode == x.identity.nationalCode)
  {
    hide CleanText;
  }

  predicate BusinessValid(q: Request)
    requires q.SaveBusiness?
  {
    && Revision(q.revision) && q.categoryId != EMPTY_GUID && q.categoryActive
    && CleanText(q.name, 180).Some? && CleanText(q.description, 500).Some?
    && ElevenDigits(q.businessPhone) && q.businessPhone[0] == '0' as int && q.offering.Some?
  }

  lemma BusinessStored(db: Db, q: Request, now: Instant)
    requires q.SaveBusiness?
    ensures var (next, r) := Handle(db, q, now); var a := q.account;
            && (r == Invalid <==> !BusinessValid(q))
            && (r.Saved? <==> BusinessValid(q) && AtStep(db, a, 3, 3, q.revision))
            && (r == Invalid || r.Saved? || r == Conflict) && (!r.Saved? ==> next == db)
            && (r.Saved? ==>
                && Wrote(db, next, a, now, r)
                && var x, y := db.drafts[a].applicant, next.drafts[a].applicant;
                   && y == x.(business := y.business, completedStep := 4)
                   && y.business.categoryId == Some(q.categoryId)
                   && y.business.name == CleanText(q.name, 180)
                   && y.business.description == CleanText(q.description, 500)
                   && y.business.phone == Some(q.businessPhone) && y.business.offering == q.offering)
  {
    hide CleanText;
  }

  /** Both coordinates or neither, and on the globe. */
  predicate OnGlobe(latitude: Option<real>, longitude: Option<real>) {
    && (latitude.Some? <==> longitude.Some?)
    && (latitude.Some? ==> -90.0 <= latitude.value <= 90.0) && (longitude.Some? ==> -180.0 <= longitude.value <= 180.0)
  }

  predicate ActivityValid(q: Request)
    requires q.SaveActivity?
  {
    && Revision(q.revision) && q.provinceId != EMPTY_GUID && q.cityId != EMPTY_GUID && q.placeSelectable
    && CleanText(q.address, 500).Some? && CleanText(q.hours, 180).Some? && CleanText(q.serviceArea, 240).Some?
    && (q.sellerDelivery || q.pickup) && OnGlobe(q.latitude, q.longitude)
  }

  lemma ActivityStored(db: Db, q: Request, now: Instant)
    requires q.SaveActivity?
    ensures var (next, r) := Handle(db, q, now); var a := q.account;
            && (r == Invalid <==> !ActivityValid(q))
            && (r.Saved? <==> ActivityValid(q) && AtStep(db, a, 4, 4, q.revision))
            && (r == Invalid || r.Saved? || r == Conflict) && (!r.Saved? ==> next == db)
            && (r.Saved? ==>
                && Wrote(db, next, a, now, r)
                && var x, y := db.drafts[a].applicant, next.drafts[a].applicant;
                   && y == x.(activity := y.activity, completedStep := 5)
                   && y.activity.provinceId == Some(q.provinceId) && y.activity.cityId == Some(q.cityId)
                   && y.activity.address == CleanText(q.address, 500)
                   && y.activity.latitude == q.latitude && y.activity.longitude == q.longitude
                   && y.activity.hours == CleanText(q.hours, 180)
                   && y.activity.sellerDelivery == Some(q.sellerDelivery) && y.activity.pickup == Some(q.pickup)
                   && y.activity.serviceArea == CleanText(q.serviceArea, 240))
  {
    hide CleanText;
  }

  predicate AdditionalValid(q: Request)
    requires q.SaveAdditional?
  {
    && Revision(q.revision) && CleanText(q.contactName, 120).Some? && CleanText(q.responseHours, 180).Some?
    && OptionalClean(q.contactRole, 120) && OptionalClean(q.websiteOrSocial, 300)
    && (q.backupPhone.None? || (CleanText(q.backupPhone, 11).Some? && MobileNumber(CleanText(q.backupPhone, 11).value)))
    && (q.businessEmail.None? || (CleanText(q.businessEmail, 254).Some? && q.emailWellFormed))
  }

  lemma AdditionalStored(db: Db, q: Request, now: Instant)
    requires q.SaveAdditional?
    ensures var (next, r) := Handle(db, q, now); var a := q.account;
            && (r == Invalid <==> !AdditionalValid(q))
            && (r.Saved? <==> AdditionalValid(q) && AtStep(db, a, 5, 5, q.revision))
            && (r == Invalid || r.Saved? || r == Conflict) && (!r.Saved? ==> next == db)
            && (r.Saved? ==>
                && Wrote(db, next, a, now, r)
                && var x, y := db.drafts[a].applicant, next.drafts[a].applicant;
                   && y == x.(additional := y.additional, completedStep := 6)
                   && y.additional.contactName == CleanText(q.contactName, 120)
                   && y.additional.contactRole == CleanText(q.contactRole, 120)
                   && y.additional.backupPhone == CleanText(q.backupPhone, 11)
                   && y.additional.websiteOrSocial == CleanText(q.websiteOrSocial, 300)
                   && y.additional.businessEmail == CleanText(q.businessEmail, 254)
                   && y.additional.responseHours == CleanText(q.responseHours, 180))
  {
    assert forall n :: CleanText(None, n) == None;
    hide CleanText;
  }
}
