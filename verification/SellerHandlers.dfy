/**
 What each seller endpoint does to the tables, one function per endpoint. A call
 is one transaction: it answers, and either commits its whole effect or leaves
 the tables as they were.
 */
module SellerHandlers {
  import opened Wrappers
  import opened Utf16
  import opened SellerRows

  /** Answers, as far as the caller can tell them apart. */
  datatype Response =
    | Saved(revision: int)
    | SubmittedAs(revision: int, submittedAt: Option<Instant>, trackingCode: Option<Text>, reviewStatus: Option<ReviewStatus>)
    | Reviewed(revision: int, review: Review)
    | AmendmentSaved(row: AmendmentRow)
    | Access(view: AccessView)
    | NotFound
    | Conflict
    | Invalid
    | Unavailable

  /** The part of the suspension, restore and activation answers that speaks about access. */
  datatype AccessView = AccessView(
    revision: int, review: Review, sellerActivated: bool, sellerSuspended: bool, sellerRoleGranted: bool)

  datatype Decision = DecideNeedsInformation | DecideApproved | DecideRejected
  datatype Verdict = Matched | NotMatched | VerifierUnavailable
  datatype UrlInput = NoUrl | BadUrl | GoodUrl(url: Text)

  /** The digest of a submission key, as the hash function returned it. */
  type Sha256 = d: seq<int> | |d| == 32 && forall i :: 0 <= i < 32 ==> 0 <= d[i] < 256
    witness seq(32, _ => 0)

  datatype Request =
    | SaveStore(account: Guid, expected: Option<int>, fields: Option<StoreFields>, phoneMatches: bool)
    | SaveApplicantType(account: Guid, revision: int, applicantType: Option<ApplicantType>)
    | VerifyNatural(account: Guid, revision: int, nationalCode: Text, phoneVerified: bool, verdict: Verdict)
    | SaveLegal(account: Guid, revision: int, legalNationalId: Text, legalName: Option<Text>,
                representativeName: Option<Text>, representativePhone: Text, phoneMatches: bool)
    | SaveBusiness(account: Guid, revision: int, categoryId: Guid, name: Option<Text>, description: Option<Text>,
                   businessPhone: Text, offering: Option<OfferingType>, categoryActive: bool)
    | SaveActivity(account: Guid, revision: int, provinceId: Guid, cityId: Guid, address: Option<Text>,
                   latitude: Option<real>, longitude: Option<real>, hours: Option<Text>,
                   sellerDelivery: bool, pickup: bool, serviceArea: Option<Text>, placeSelectable: bool)
    | SaveAdditional(account: Guid, revision: int, contactName: Option<Text>, contactRole: Option<Text>,
                     backupPhone: Option<Text>, websiteOrSocial: Option<Text>, businessEmail: Option<Text>,
                     responseHours: Option<Text>, emailWellFormed: bool)
    | Submit(account: Guid, revision: int, confirmed: bool, key: Guid, digest: Sha256)
    | ReviewApplication(account: Guid, admin: Guid, revision: int, decision: Option<Decision>,
                        reason: Option<Text>, key: Guid)
    | SaveAmendment(account: Guid, revision: int, responseText: Option<Text>, url: UrlInput, newId: Guid)
    | Resubmit(account: Guid, revision: int, amendmentId: Guid)
    | Activate(account: Guid, admin: Guid, revision: int, key: Guid)
    | Suspend(account: Guid, admin: Guid, revision: int, reason: Option<Text>, key: Guid)
    | Restore(account: Guid, admin: Guid, revision: int, key: Guid)

  predicate BadRevision(revision: int) {
    revision < 1 || revision == MAX_REVISION
  }

  function Put(db: Db, account: Guid, row: Draft): Db {
    db.(drafts := db.drafts[account := row])
  }

  /** The guard of every step's UPDATE: a draft, at one of these steps, at this revision. */
  predicate Editable(db: Db, account: Guid, low: int, high: int, revision: int) {
    && account in db.drafts
    && db.drafts[account].status.DRAFT?
    && low <= db.drafts[account].applicant.completedStep <= high
    && db.drafts[account].revision == revision
  }

  /** The SET list every step shares: the new applicant columns, and a consumed revision. */
  function Advance(row: Draft, applicant: Applicant, now: Instant): Draft {
    row.(applicant := applicant, revision := row.revision + 1, updatedAt := now)
  }

  /** UPDATE ... WHERE the row is editable; zero updated rows answer with a conflict. */
  function UpdateStep(db: Db, account: Guid, low: int, high: int, revision: int,
                      applicant: Applicant -> Applicant, now: Instant): (Db, Response)
  {
    if !Editable(db, account, low, high, revision) then (db, Conflict)
    else
      var row := db.drafts[account];
      (Put(db, account, Advance(row, applicant(row.applicant), now)), Saved(revision + 1))
  }

  function NewDraft(fields: StoreFields, now: Instant): Draft {
    Draft(Applicant(fields, None, NO_IDENTITY, NO_BUSINESS, NO_ACTIVITY, NO_ADDITIONAL, 1),
          DRAFT, 1, NO_SUBMISSION, NO_REVIEW, NO_ACTIVATION, now)
  }

  function OnSaveStore(db: Db, account: Guid, expected: Option<int>, fields: Option<StoreFields>,
                       phoneMatches: bool, now: Instant): (Db, Response)
  {
    if expected.None? || expected.value < 0 || expected.value == MAX_REVISION then (db, Invalid)
    else if fields.None? || !phoneMatches then (db, Invalid)
    else if expected.value == 0 then
      if account in db.drafts then (db, Conflict)
      else (Put(db, account, NewDraft(fields.value, now)), Saved(1))
    else
      UpdateStep(db, account, 1, 1, expected.value, (a: Applicant) => a.(store := fields.value), now)
  }

  function OnSaveApplicantType(db: Db, account: Guid, revision: int, applicantType: Option<ApplicantType>,
                               now: Instant): (Db, Response)
  {
    if BadRevision(revision) || applicantType.None? then (db, Invalid)
    else UpdateStep(db, account, 1, 2, revision,
      (a: Applicant) => a.(applicantType := applicantType, identity := NO_IDENTITY, completedStep := 2), now)
  }

  /** The weighted check digit of an Iranian national code. */
  function WeightedSum(code: Text, n: nat): int
    requires n <= |code|
  {
    if n == 0 then 0 else WeightedSum(code, n - 1) + (code[n - 1] - '0' as int) * (11 - n)
  }

  predicate IsNationalCode(code: Text) {
    && |code| == 10 && AllDigits(code)
    && (exists i :: 0 <= i < 10 && code[i] != code[0])
    && (var remainder := WeightedSum(code, 9) % 11;
        code[9] - '0' as int == if remainder < 2 then remainder else 11 - remainder)
  }

  predicate IsMobile(phone: Text) {
    |phone| == 11 && AllDigits(phone) && phone[0] == '0' as int && phone[1] == '9' as int
  }

  function OnVerifyNatural(db: Db, account: Guid, revision: int, nationalCode: Text, phoneVerified: bool,
                           verdict: Verdict, now: Instant): (Db, Response)
  {
    if BadRevision(revision) || !IsNationalCode(nationalCode) || !phoneVerified then (db, Invalid)
    else if account !in db.drafts then (db, NotFound)
    else if !Editable(db, account, 2, 2, revision) || db.drafts[account].applicant.applicantType != Some(NATURAL)
    then (db, Conflict)
    else match verdict
      case VerifierUnavailable => (db, Unavailable)
      case NotMatched => (db, Invalid)
      case Matched =>
        UpdateStep(db, account, 2, 2, revision, (a: Applicant) => a.(
          identity := a.identity.(nationalCode := Some(nationalCode), status := Some(VERIFIED)),
          completedStep := 3), now)
  }

  function OnSaveLegal(db: Db, account: Guid, revision: int, legalNationalId: Text, legalName: Option<Text>,
                       representativeName: Option<Text>, representativePhone: Text, phoneMatches: bool,
                       now: Instant): (Db, Response)
  {
    var name := CleanText(legalName, 180);
    var representative := CleanText(representativeName, 120);
    if BadRevision(revision) then (db, Invalid)
    else if |legalNationalId| != 11 || !AllDigits(legalNationalId) || !IsMobile(representativePhone)
         || name.None? || representative.None? || !phoneMatches then (db, Invalid)
    else if account in db.drafts && db.drafts[account].applicant.applicantType != Some(LEGAL) then (db, Conflict)
    else UpdateStep(db, account, 2, 2, revision, (a: Applicant) => a.(
      identity := a.identity.(
        legalNationalId := Some(legalNationalId), legalName := name, representativeName := representative,
        representativePhone := Some(representativePhone), status := Some(RECORDED)),
      completedStep := 3), now)
  }

  function OnSaveBusiness(db: Db, account: Guid, revision: int, categoryId: Guid, name: Option<Text>,
                          description: Option<Text>, phone: Text, offering: Option<OfferingType>,
                          categoryActive: bool, now: Instant): (Db, Response)
  {
    var cleanName := CleanText(name, 180);
    var cleanDescription := CleanText(description, 500);
    if BadRevision(revision) then (db, Invalid)
    else if categoryId == EMPTY_GUID || cleanName.None? || cleanDescription.None?
         || |phone| != 11 || phone[0] != '0' as int || !AllDigits(phone)
         || offering.None? || !categoryActive then (db, Invalid)
    else UpdateStep(db, account, 3, 3, revision, (a: Applicant) => a.(
      business := Business(Some(categoryId), cleanName, cleanDescription, Some(phone), offering),
      completedStep := 4), now)
  }

  predicate CoordinatesValid(latitude: Option<real>, longitude: Option<real>) {
    || (latitude.None? && longitude.None?)
    || (latitude.Some? && -90.0 <= latitude.value <= 90.0 && longitude.Some? && -180.0 <= longitude.value <= 180.0)
  }

  function OnSaveActivity(db: Db, account: Guid, revision: int, provinceId: Guid, cityId: Guid,
                          address: Option<Text>, latitude: Option<real>, longitude: Option<real>,
                          hours: Option<Text>, sellerDelivery: bool, pickup: bool, serviceArea: Option<Text>,
                          placeSelectable: bool, now: Instant): (Db, Response)
  {
    var cleanAddress := CleanText(address, 500);
    var cleanHours := CleanText(hours, 180);
    var cleanArea := CleanText(serviceArea, 240);
    if BadRevision(revision) then (db, Invalid)
    else if provinceId == EMPTY_GUID || cityId == EMPTY_GUID
         || cleanAddress.None? || cleanHours.None? || cleanArea.None?
         || (!sellerDelivery && !pickup) || !CoordinatesValid(latitude, longitude)
         || !placeSelectable then (db, Invalid)
    else UpdateStep(db, account, 4, 4, revision, (a: Applicant) => a.(
      activity := Activity(Some(provinceId), Some(cityId), cleanAddress, latitude, longitude, cleanHours,
                           Some(sellerDelivery), Some(pickup), cleanArea),
      completedStep := 5), now)
  }

  /** An optional field may be absent, but a given one must survive cleaning. */
  predicate Refused(input: Option<Text>, cleaned: Option<Text>) {
    input.Some? && cleaned.None?
  }

  function OnSaveAdditional(db: Db, account: Guid, revision: int, contactName: Option<Text>,
                            contactRole: Option<Text>, backupPhone: Option<Text>, websiteOrSocial: Option<Text>,
                            businessEmail: Option<Text>, responseHours: Option<Text>, emailWellFormed: bool,
                            now: Instant): (Db, Response)
  {
    var name := CleanText(contactName, 120);
    var role := CleanText(contactRole, 120);
    var phone := CleanText(backupPhone, 11);
    var website := CleanText(websiteOrSocial, 300);
    var email := CleanText(businessEmail, 254);
    var hours := CleanText(responseHours, 180);
    if BadRevision(revision) then (db, Invalid)
    else if name.None? || hours.None? || Refused(contactRole, role) || Refused(backupPhone, phone)
         || Refused(websiteOrSocial, website) || Refused(businessEmail, email)
         || (phone.Some? && !IsMobile(phone.value))
         || (email.Some? && !emailWellFormed) then (db, Invalid)
    else UpdateStep(db, account, 5, 5, revision, (a: Applicant) => a.(
      additional := Additional(name, role, phone, website, email, hours), completedStep := 6), now)
  }

  function HexText(bytes: seq<int>): (r: Text)
    ensures |r| == 2 * |bytes|
  {
    if bytes == [] then []
    else [UpperHex(bytes[0] / 16), UpperHex(bytes[0] % 16)] + HexText(bytes[1..])
  }

  /** "HNA-" and the first eight bytes of the key's digest in upper-case hexadecimal. */
  function TrackingCode(digest: Sha256): Text {
    Ascii("HNA-") + HexText(digest[..8])
  }

  /** The unique index on tracking codes refuses a code another account already holds. */
  predicate TrackingCodeTaken(db: Db, account: Guid, code: Text) {
    exists other <- db.drafts.Keys ::
      other != account && db.drafts[other].submission.trackingCode == Some(code)
  }

  function OnSubmit(db: Db, account: Guid, revision: int, confirmed: bool, key: Guid, digest: Sha256,
                    now: Instant): (Db, Response)
  {
    if BadRevision(revision) || !confirmed || key == EMPTY_GUID then (db, Invalid)
    else if Editable(db, account, 6, 6, revision) then
      var code := TrackingCode(digest);
      if TrackingCodeTaken(db, account, code) then (db, Unavailable)
      else
        var row := db.drafts[account].(
          status := SUBMITTED, revision := revision + 1,
          submission := Submission(Some(key), Some(revision), Some(now), Some(now), Some(code)),
          review := db.drafts[account].review.(status := Some(UNDER_REVIEW)),
          updatedAt := now);
        (Put(db, account, row), SubmittedAs(revision + 1, Some(now), Some(code), Some(UNDER_REVIEW)))
    else if account !in db.drafts then (db, NotFound)
    else
      var row := db.drafts[account];
      if row.status.SUBMITTED? && row.submission.key == Some(key)
         && row.submission.expectedRevision == Some(revision)
         && row.submission.submittedAt.Some? && row.submission.accuracyConfirmedAt.Some? then
        (db, SubmittedAs(row.revision, row.submission.submittedAt, row.submission.trackingCode, row.review.status))
      else (db, Conflict)
  }

  function StatusOf(decision: Decision): ReviewStatus {
    match decision
    case DecideNeedsInformation => NEEDS_INFORMATION
    case DecideApproved => APPROVED
    case DecideRejected => REJECTED
  }

  function OnReview(db: Db, account: Guid, admin: Guid, revision: int, decision: Option<Decision>,
                    reasonInput: Option<Text>, key: Guid, now: Instant): (Db, Response)
  {
    var reason := CleanText(reasonInput, 500);
    if BadRevision(revision) || decision.None? then (db, Invalid)
    else if !decision.value.DecideApproved? && reason.None? then (db, Invalid)
    else if Refused(reasonInput, reason) || key == EMPTY_GUID then (db, Invalid)
    else
      var status := StatusOf(decision.value);
      match Find(db.reviews, ReviewKeyIs(key))
      case Some(i) =>
        var prior := db.reviews[i];
        if prior.application != account || prior.expectedRevision != revision || prior.decision != status
           || prior.reason != reason || prior.reviewer != admin then (db, Conflict)
        else if account !in db.drafts then (db, NotFound)
        else (db, Reviewed(db.drafts[account].revision, db.drafts[account].review))
      case None =>
        if account !in db.drafts then (db, NotFound)
        else
          var row := db.drafts[account];
          if !row.status.SUBMITTED? || row.review.status != Some(UNDER_REVIEW) || row.revision != revision
          then (db, Conflict)
          else
            var review := Review(Some(status), reason, Some(admin), Some(now));
            var next := Put(db, account, row.(review := review, revision := revision + 1, updatedAt := now));
            (next.(reviews := db.reviews + [ReviewRow(account, admin, key, revision, status, reason, now)]),
             Reviewed(revision + 1, review))
  }

  predicate Amendable(row: Draft, revision: int) {
    row.status.SUBMITTED? && row.review.status == Some(NEEDS_INFORMATION) && row.revision == revision
  }

  function OnSaveAmendment(db: Db, account: Guid, revision: int, responseInput: Option<Text>, url: UrlInput,
                           newId: Guid, now: Instant): (Db, Response)
  {
    var response := CleanText(responseInput, 2000);
    var reference := if url.GoodUrl? then Some(url.url) else None;
    if response.None? || url.BadUrl? || BadRevision(revision) then (db, Invalid)
    else if account !in db.drafts then (db, NotFound)
    else
      var row := db.drafts[account];
      if !Amendable(row, revision) || row.review.reason.None? then (db, Conflict)
      else match Find(db.amendments, OpenAmendmentOf(account))
        case None =>
          var created := AmendmentRow(newId, account, row.revision, OPEN, row.review.reason.value,
                                      response.value, reference, now, now, None);
          if Find(db.amendments, AmendmentIdIs(newId)).Some? then (db, Conflict)
          else (db.(amendments := db.amendments + [created]), AmendmentSaved(created))
        case Some(i) =>
          var open := db.amendments[i];
          if open.baseRevision != row.revision || Some(open.reviewerReason) != row.review.reason then (db, Conflict)
          else
            var edited := open.(responseText := response.value, referenceUrl := reference, updatedAt := now);
            (db.(amendments := db.amendments[i := edited]), AmendmentSaved(edited))
  }

  function OnResubmit(db: Db, account: Guid, revision: int, amendmentId: Guid, now: Instant): (Db, Response)
  {
    if BadRevision(revision) then (db, Invalid)
    else if account !in db.drafts then (db, NotFound)
    else
      var row := db.drafts[account];
      var found := Find(db.amendments, AmendmentIdIs(amendmentId));
      if !Amendable(row, revision) || found.None?
         || !OpenAmendmentOf(account)(db.amendments[found.value])
         || db.amendments[found.value].baseRevision != revision then (db, Conflict)
      else
        var closed := db.amendments[found.value].(status := RESUBMITTED, resubmittedAt := Some(now), updatedAt := now);
        var next := Put(db, account, row.(
          review := Review(Some(UNDER_REVIEW), None, None, None), revision := row.revision + 1, updatedAt := now));
        (next.(amendments := db.amendments[found.value := closed]), Saved(row.revision + 1))
  }

  /** The answer of activate, suspend and restore: computed without reading the role row. */
  function AccessResponse(db: Db, account: Guid): Response {
    if account !in db.drafts then NotFound
    else
      var row := db.drafts[account];
      var activated := row.activation.activatedAt.Some?;
      var suspended := Suspended(db, account);
      Access(AccessView(row.revision, row.review, activated, suspended, activated && !suspended))
  }

  function OnActivate(db: Db, account: Guid, admin: Guid, revision: int, key: Guid, now: Instant): (Db, Response)
  {
    if BadRevision(revision) || key == EMPTY_GUID then (db, Invalid)
    else match Find(db.activations, ActivationKeyIs(key))
      case Some(i) =>
        var prior := db.activations[i];
        if prior.application != account || prior.expectedRevision != revision || prior.activatedBy != admin
        then (db, Conflict)
        else (db, AccessResponse(db, account))
      case None =>
        if HasActivation(db, account) then (db, Conflict)
        else if account !in db.drafts then (db, NotFound)
        else
          var row := db.drafts[account];
          if !row.status.SUBMITTED? || row.review.status != Some(APPROVED) || row.activation != NO_ACTIVATION
             || row.revision != revision || OpenAmendment(db, account).Some? then (db, Conflict)
          else
            var next := Put(db, account, row.(
              activation := Activation(Some(now), Some(admin)), revision := revision + 1, updatedAt := now));
            var done := next.(
              sellers := db.sellers + {account},
              activations := db.activations + [ActivationRow(account, admin, key, revision, now)]);
            (done, AccessResponse(done, account))
  }

  function OnSuspend(db: Db, account: Guid, admin: Guid, revision: int, reasonInput: Option<Text>, key: Guid,
                     now: Instant): (Db, Response)
  {
    var reason := CleanText(reasonInput, 500);
    if BadRevision(revision) || reason.None? || key == EMPTY_GUID then (db, Invalid)
    else match Find(db.suspensions, SuspensionKeyIs(key))
      case Some(i) =>
        var prior := db.suspensions[i];
        if prior.application != account || prior.suspendedBy != admin || prior.expectedRevision != revision
           || prior.reason != reason.value then (db, Conflict)
        else (db, AccessResponse(db, account))
      case None =>
        if account !in db.drafts then (db, NotFound)
        else
          var row := db.drafts[account];
          if row.activation.activatedAt.None? || row.revision != revision || Suspended(db, account)
          then (db, Conflict)
          else
            var next := Put(db, account, row.(revision := row.revision + 1, updatedAt := now));
            var done := next.(
              sellers := db.sellers - {account},
              suspensions := db.suspensions +
                [SuspensionRow(account, admin, key, revision, reason.value, now, None, None, None, None)]);
            (done, AccessResponse(done, account))
  }

  function OnRestore(db: Db, account: Guid, admin: Guid, revision: int, key: Guid, now: Instant): (Db, Response)
  {
    if BadRevision(revision) || key == EMPTY_GUID then (db, Invalid)
    else match Find(db.suspensions, RestoreKeyIs(key))
      case Some(i) =>
        var prior := db.suspensions[i];
        if prior.application != account || prior.restoredBy != Some(admin)
           || prior.restoreExpectedRevision != Some(revision) then (db, Conflict)
        else (db, AccessResponse(db, account))
      case None =>
        if account !in db.drafts then (db, NotFound)
        else
          var row := db.drafts[account];
          match Find(db.suspensions, OpenSuspensionOf(account))
          case None => (db, Conflict)
          case Some(i) =>
            if row.activation.activatedAt.None? || row.revision != revision then (db, Conflict)
            else
              var restored := db.suspensions[i].(
                restoredAt := Some(now), restoredBy := Some(admin),
                restoreKey := Some(key), restoreExpectedRevision := Some(revision));
              var next := Put(db, account, row.(revision := row.revision + 1, updatedAt := now));
              var done := next.(
                sellers := db.sellers + {account}, suspensions := db.suspensions[i := restored]);
              (done, AccessResponse(done, account))
  }

  function Handle(db: Db, q: Request, now: Instant): (Db, Response)
  {
    match q
    case SaveStore(a, expected, fields, matches) => OnSaveStore(db, a, expected, fields, matches, now)
    case SaveApplicantType(a, r, t) => OnSaveApplicantType(db, a, r, t, now)
    case VerifyNatural(a, r, code, verified, verdict) => OnVerifyNatural(db, a, r, code, verified, verdict, now)
    case SaveLegal(a, r, id, name, rep, phone, matches) => OnSaveLegal(db, a, r, id, name, rep, phone, matches, now)
    case SaveBusiness(a, r, c, name, d, phone, o, active) => OnSaveBusiness(db, a, r, c, name, d, phone, o, active, now)
    case SaveActivity(a, r, p, c, address, lat, lon, h, sd, pu, area, ok) =>
      OnSaveActivity(db, a, r, p, c, address, lat, lon, h, sd, pu, area, ok, now)
    case SaveAdditional(a, r, name, role, phone, web, email, h, ok) =>
      OnSaveAdditional(db, a, r, name, role, phone, web, email, h, ok, now)
    case Submit(a, r, confirmed, key, digest) => OnSubmit(db, a, r, confirmed, key, digest, now)
    case ReviewApplication(a, admin, r, d, reason, key) => OnReview(db, a, admin, r, d, reason, key, now)
    case SaveAmendment(a, r, response, url, id) => OnSaveAmendment(db, a, r, response, url, id, now)
    case Resubmit(a, r, id) => OnResubmit(db, a, r, id, now)
    case Activate(a, admin, r, key) => OnActivate(db, a, admin, r, key, now)
    case Suspend(a, admin, r, reason, key) => OnSuspend(db, a, admin, r, reason, key, now)
    case Restore(a, admin, r, key) => OnRestore(db, a, admin, r, key, now)
  }

  /** The tables after a run of requests, each with the time it was served at. */
  function Run(db: Db, run: seq<(Request, Instant)>): Db {
    if run == [] then db else
      var last := |run| - 1;
      Handle(Run(db, run[..last]), run[last].0, run[last].1).0
  }
}
