/**
 The seller endpoints as they run: each reads the tables, checks its guard and
 updates rows in place. Every method is proved to do exactly what its function in
 `SellerHandlers` says, so the run theorems speak about these methods too.
 */
module SellerDatabase {
  import opened Wrappers
  import opened Utf16
  import opened SellerRows
  import opened SellerHandlers
  import opened SellerInvariants

  class Database {
    var drafts: map<Guid, Draft>
    var reviews: seq<ReviewRow>
    var amendments: seq<AmendmentRow>
    var activations: seq<ActivationRow>
    var suspensions: seq<SuspensionRow>
    var sellers: set<Guid>

    function State(): Db
      reads this
    {
      Db(drafts, reviews, amendments, activations, suspensions, sellers)
    }

    constructor ()
      ensures State() == EMPTY_DB
    {
      drafts, reviews, amendments, activations, suspensions, sellers := map[], [], [], [], [], {};
    }

    method SaveStore(account: Guid, expected: Option<int>, fields: Option<StoreFields>, phoneMatches: bool, now: Instant)
      returns (r: Response)
      modifies this`drafts
      ensures (State(), r) == OnSaveStore(old(State()), account, expected, fields, phoneMatches, now)
    {
      if expected.None? || expected.value < 0 || expected.value == MAX_REVISION { return Invalid; }
      if fields.None? || !phoneMatches { return Invalid; }
      if expected.value == 0 {
        if account in drafts { return Conflict; }
        drafts := drafts[account := NewDraft(fields.value, now)];
        return Saved(1);
      }
      if !Editable(State(), account, 1, 1, expected.value) { return Conflict; }
      var row := drafts[account];
      drafts := drafts[account := Advance(row, row.applicant.(store := fields.value), now)];
      return Saved(expected.value + 1);
    }

    method SaveApplicantType(account: Guid, revision: int, applicantType: Option<ApplicantType>, now: Instant)
      returns (r: Response)
      modifies this`drafts
      ensures (State(), r) == OnSaveApplicantType(old(State()), account, revision, applicantType, now)
    {
      if BadRevision(revision) || applicantType.None? { return Invalid; }
      if !Editable(State(), account, 1, 2, revision) { return Conflict; }
      var row := drafts[account];
      // Choosing a type again forgets whatever identity the earlier choice recorded.
      var next := row.applicant.(applicantType := applicantType, identity := NO_IDENTITY, completedStep := 2);
      drafts := drafts[account := Advance(row, next, now)];
      return Saved(revision + 1);
    }

    method VerifyNatural(account: Guid, revision: int, nationalCode: Text, phoneVerified: bool, verdict: Verdict,
                         now: Instant) returns (r: Response)
      modifies this`drafts
      ensures (State(), r) == OnVerifyNatural(old(State()), account, revision, nationalCode, phoneVerified, verdict, now)
    {
      if BadRevision(revision) || !IsNationalCode(nationalCode) || !phoneVerified { return Invalid; }
      if account !in drafts { return NotFound; }
      var row := drafts[account];
      if !row.status.DRAFT? || row.applicant.applicantType != Some(NATURAL) || row.applicant.completedStep != 2
         || row.revision != revision
      {
        return Conflict;
      }
      if verdict.VerifierUnavailable? { return Unavailable; }
      if verdict.NotMatched? { return Invalid; }
      var identity := row.applicant.identity.(nationalCode := Some(nationalCode), status := Some(VERIFIED));
      drafts := drafts[account := Advance(row, row.applicant.(identity := identity, completedStep := 3), now)];
      return Saved(revision + 1);
    }

    method SaveLegal(account: Guid, revision: int, legalNationalId: Text, legalName: Option<Text>,
                     representativeName: Option<Text>, representativePhone: Text, phoneMatches: bool, now: Instant)
      returns (r: Response)
      modifies this`drafts
      ensures (State(), r) == OnSaveLegal(old(State()), account, revision, legalNationalId, legalName,
                                          representativeName, representativePhone, phoneMatches, now)
    {
      if BadRevision(revision) { return Invalid; }
      var name := CleanText(legalName, 180);
      var representative := CleanText(representativeName, 120);
      if |legalNationalId| != 11 || !AllDigits(legalNationalId) || !IsMobile(representativePhone)
         || name.None? || representative.None? || !phoneMatches
      {
        return Invalid;
      }
      if !Editable(State(), account, 2, 2, revision) || drafts[account].applicant.applicantType != Some(LEGAL) {
        return Conflict;
      }
      var row := drafts[account];
      var identity := row.applicant.identity.(
        legalNationalId := Some(legalNationalId), legalName := name, representativeName := representative,
        representativePhone := Some(representativePhone), status := Some(RECORDED));
      drafts := drafts[account := Advance(row, row.applicant.(identity := identity, completedStep := 3), now)];
      return Saved(revision + 1);
    }

    method SaveBusiness(account: Guid, revision: int, categoryId: Guid, name: Option<Text>, description: Option<Text>,
                        phone: Text, offering: Option<OfferingType>, categoryActive: bool, now: Instant)
      returns (r: Response)
      modifies this`drafts
      ensures (State(), r) == OnSaveBusiness(old(State()), account, revision, categoryId, name, description,
                                             phone, offering, categoryActive, now)
    {
      if BadRevision(revision) { return Invalid; }
      var cleanName := CleanText(name, 180);
      var cleanDescription := CleanText(description, 500);
      if categoryId == EMPTY_GUID || cleanName.None? || cleanDescription.None?
         || |phone| != 11 || phone[0] != '0' as int || !AllDigits(phone) || offering.None? || !categoryActive
      {
        return Invalid;
      }
      if !Editable(State(), account, 3, 3, revision) { return Conflict; }
      var row := drafts[account];
      var business := Business(Some(categoryId), cleanName, cleanDescription, Some(phone), offering);
      drafts := drafts[account := Advance(row, row.applicant.(business := business, completedStep := 4), now)];
      return Saved(revision + 1);
    }

    method SaveActivity(account: Guid, revision: int, provinceId: Guid, cityId: Guid, address: Option<Text>,
                        latitude: Option<real>, longitude: Option<real>, hours: Option<Text>, sellerDelivery: bool,
                        pickup: bool, serviceArea: Option<Text>, placeSelectable: bool, now: Instant)
      returns (r: Response)
      modifies this`drafts
      ensures (State(), r) == OnSaveActivity(old(State()), account, revision, provinceId, cityId, address, latitude,
                                             longitude, hours, sellerDelivery, pickup, serviceArea, placeSelectable, now)
    {
      if BadRevision(revision) { return Invalid; }
      var cleanAddress := CleanText(address, 500);
      var cleanHours := CleanText(hours, 180);
      var cleanArea := CleanText(serviceArea, 240);
      if provinceId == EMPTY_GUID || cityId == EMPTY_GUID
         || cleanAddress.None? || cleanHours.None? || cleanArea.None?
         || (!sellerDelivery && !pickup) || !CoordinatesValid(latitude, longitude) || !placeSelectable
      {
        return Invalid;
      }
      if !Editable(State(), account, 4, 4, revision) { return Conflict; }
      var row := drafts[account];
      var activity := Activity(Some(provinceId), Some(cityId), cleanAddress, latitude, longitude, cleanHours,
                               Some(sellerDelivery), Some(pickup), cleanArea);
      drafts := drafts[account := Advance(row, row.applicant.(activity := activity, completedStep := 5), now)];
      return Saved(revision + 1);
    }

    method SaveAdditional(account: Guid, revision: int, contactName: Option<Text>, contactRole: Option<Text>,
                          backupPhone: Option<Text>, websiteOrSocial: Option<Text>, businessEmail: Option<Text>,
                          responseHours: Option<Text>, emailWellFormed: bool, now: Instant)
      returns (r: Response)
      modifies this`drafts
      ensures (State(), r) == OnSaveAdditional(old(State()), account, revision, contactName, contactRole, backupPhone,
                                               websiteOrSocial, businessEmail, responseHours, emailWellFormed, now)
    {
      if BadRevision(revision) { return Invalid; }
      var name := CleanText(contactName, 120);
      var role := CleanText(contactRole, 120);
      var phone := CleanText(backupPhone, 11);
      var website := CleanText(websiteOrSocial, 300);
      var email := CleanText(businessEmail, 254);
      var hours := CleanText(responseHours, 180);
      if name.None? || hours.None? || Refused(contactRole, role) || Refused(backupPhone, phone)
         || Refused(websiteOrSocial, website) || Refused(businessEmail, email)
         || (phone.Some? && !IsMobile(phone.value)) || (email.Some? && !emailWellFormed)
      {
        return Invalid;
      }
      if !Editable(State(), account, 5, 5, revision) { return Conflict; }
      var row := drafts[account];
      var additional := Additional(name, role, phone, website, email, hours);
      drafts := drafts[account := Advance(row, row.applicant.(additional := additional, completedStep := 6), now)];
      return Saved(revision + 1);
    }

    method Submit(account: Guid, revision: int, confirmed: bool, key: Guid, digest: Sha256, now: Instant)
      returns (r: Response)
      modifies this`drafts
      ensures (State(), r) == OnSubmit(old(State()), account, revision, confirmed, key, digest, now)
    {
      if BadRevision(revision) || !confirmed || key == EMPTY_GUID { return Invalid; }
      var code := TrackingCode(digest);
      if Editable(State(), account, 6, 6, revision) {
        if TrackingCodeTaken(State(), account, code) { return Unavailable; }
        var row := drafts[account];
        row := row.(status := SUBMITTED, revision := revision + 1);
        row := row.(submission := Submission(Some(key), Some(revision), Some(now), Some(now), Some(code)));
        row := row.(review := row.review.(status := Some(UNDER_REVIEW)), updatedAt := now);
        drafts := drafts[account := row];
        return SubmittedAs(revision + 1, Some(now), Some(code), Some(UNDER_REVIEW));
      }
      if account !in drafts { return NotFound; }
      var current := drafts[account];
      if current.status.SUBMITTED? && current.submission.key == Some(key)
         && current.submission.expectedRevision == Some(revision)
         && current.submission.submittedAt.Some? && current.submission.accuracyConfirmedAt.Some?
      {
        return SubmittedAs(current.revision, current.submission.submittedAt,
                           current.submission.trackingCode, current.review.status);
      }
      return Conflict;
    }

    method Review(account: Guid, admin: Guid, revision: int, decision: Option<Decision>, reasonInput: Option<Text>,
                  key: Guid, now: Instant)
      returns (r: Response)
      modifies this`drafts, this`reviews
      ensures (State(), r) == OnReview(old(State()), account, admin, revision, decision, reasonInput, key, now)
    {
      if BadRevision(revision) || decision.None? { return Invalid; }
      var reason := CleanText(reasonInput, 500);
      if !decision.value.DecideApproved? && reason.None? { return Invalid; }
      if Refused(reasonInput, reason) || key == EMPTY_GUID { return Invalid; }
      var status := StatusOf(decision.value);
      var existing := Find(reviews, ReviewKeyIs(key));
      if existing.Some? {
        var prior := reviews[existing.value];
        if prior.application != account || prior.expectedRevision != revision || prior.decision != status
           || prior.reason != reason || prior.reviewer != admin
        {
          return Conflict;
        }
        if account !in drafts { return NotFound; }
        return Reviewed(drafts[account].revision, drafts[account].review);
      }
      if account !in drafts { return NotFound; }
      var row := drafts[account];
      if !row.status.SUBMITTED? || row.review.status != Some(UNDER_REVIEW) || row.revision != revision {
        return Conflict;
      }
      row := row.(review := SellerRows.Review(Some(status), reason, Some(admin), Some(now)));
      row := row.(revision := revision + 1, updatedAt := now);
      drafts := drafts[account := row];
      reviews := reviews + [ReviewRow(account, admin, key, revision, status, reason, now)];
      return Reviewed(row.revision, row.review);
    }

    method SaveAmendment(account: Guid, revision: int, responseInput: Option<Text>, url: UrlInput, newId: Guid, now: Instant)
      returns (r: Response)
      modifies this`amendments
      ensures (State(), r) == OnSaveAmendment(old(State()), account, revision, responseInput, url, newId, now)
    {
      var response := CleanText(responseInput, 2000);
      var reference := if url.GoodUrl? then Some(url.url) else None;
      if response.None? || url.BadUrl? || BadRevision(revision) { return Invalid; }
      if account !in drafts { return NotFound; }
      var row := drafts[account];
      if !Amendable(row, revision) || row.review.reason.None? { return Conflict; }
      var open := Find(amendments, OpenAmendmentOf(account));
      if open.None? {
        if Find(amendments, AmendmentIdIs(newId)).Some? { return Conflict; }
        var created := AmendmentRow(newId, account, row.revision, OPEN, row.review.reason.value,
                                    response.value, reference, now, now, None);
        amendments := amendments + [created];
        return AmendmentSaved(created);
      }
      var edited := amendments[open.value];
      if edited.baseRevision != row.revision || Some(edited.reviewerReason) != row.review.reason { return Conflict; }
      edited := edited.(responseText := response.value, referenceUrl := reference, updatedAt := now);
      amendments := amendments[open.value := edited];
      return AmendmentSaved(edited);
    }

    method Resubmit(account: Guid, revision: int, amendmentId: Guid, now: Instant) returns (r: Response)
      modifies this`drafts, this`amendments
      ensures (State(), r) == OnResubmit(old(State()), account, revision, amendmentId, now)
    {
      if BadRevision(revision) { return Invalid; }
      if account !in drafts { return NotFound; }
      var row := drafts[account];
      var found := Find(amendments, AmendmentIdIs(amendmentId));
      if !Amendable(row, revision) || found.None? || !OpenAmendmentOf(account)(amendments[found.value])
         || amendments[found.value].baseRevision != revision
      {
        return Conflict;
      }
      row := row.(review := SellerRows.Review(Some(UNDER_REVIEW), None, None, None));
      row := row.(revision := row.revision + 1, updatedAt := now);
      drafts := drafts[account := row];
      var amendment := amendments[found.value].(status := RESUBMITTED, resubmittedAt := Some(now), updatedAt := now);
      amendments := amendments[found.value := amendment];
      return Saved(row.revision);
    }

    method Activate(account: Guid, admin: Guid, revision: int, key: Guid, now: Instant) returns (r: Response)
      modifies this`drafts, this`activations, this`sellers
      ensures (State(), r) == OnActivate(old(State()), account, admin, revision, key, now)
    {
      if BadRevision(revision) || key == EMPTY_GUID { return Invalid; }
      var existing := Find(activations, ActivationKeyIs(key));
      if existing.Some? {
        var prior := activations[existing.value];
        if prior.application != account || prior.expectedRevision != revision || prior.activatedBy != admin {
          return Conflict;
        }
        return AccessResponse(State(), account);
      }
      if Find(activations, ActivationOf(account)).Some? { return Conflict; }
      if account !in drafts { return NotFound; }
      var row := drafts[account];
      if !row.status.SUBMITTED? || row.review.status != Some(APPROVED) || row.activation != NO_ACTIVATION
         || row.revision != revision || OpenAmendment(State(), account).Some?
      {
        return Conflict;
      }
      row := row.(activation := Activation(Some(now), Some(admin)), revision := revision + 1, updatedAt := now);
      drafts := drafts[account := row];
      sellers := sellers + {account};
      activations := activations + [ActivationRow(account, admin, key, revision, now)];
      return AccessResponse(State(), account);
    }

    method Suspend(account: Guid, admin: Guid, revision: int, reasonInput: Option<Text>, key: Guid, now: Instant)
      returns (r: Response)
      modifies this`drafts, this`suspensions, this`sellers
      ensures (State(), r) == OnSuspend(old(State()), account, admin, revision, reasonInput, key, now)
    {
      var reason := CleanText(reasonInput, 500);
      if BadRevision(revision) || reason.None? || key == EMPTY_GUID { return Invalid; }
      var existing := Find(suspensions, SuspensionKeyIs(key));
      if existing.Some? {
        var prior := suspensions[existing.value];
        if prior.application != account || prior.suspendedBy != admin || prior.expectedRevision != revision
           || prior.reason != reason.value
        {
          return Conflict;
        }
        return AccessResponse(State(), account);
      }
      if account !in drafts { return NotFound; }
      var current := drafts[account];
      if current.activation.activatedAt.None? || current.revision != revision || Suspended(State(), account) {
        return Conflict;
      }
      suspensions := suspensions +
        [SuspensionRow(account, admin, key, revision, reason.value, now, None, None, None, None)];
      current := current.(revision := current.revision + 1, updatedAt := now);
      drafts := drafts[account := current];
      sellers := sellers - {account};
      return AccessResponse(State(), account);
    }

    method Restore(account: Guid, admin: Guid, revision: int, key: Guid, now: Instant) returns (r: Response)
      modifies this`drafts, this`suspensions, this`sellers
      ensures (State(), r) == OnRestore(old(State()), account, admin, revision, key, now)
    {
      if BadRevision(revision) || key == EMPTY_GUID { return Invalid; }
      var existing := Find(suspensions, RestoreKeyIs(key));
      if existing.Some? {
        var prior := suspensions[existing.value];
        if prior.application != account || prior.restoredBy != Some(admin)
           || prior.restoreExpectedRevision != Some(revision)
        {
          return Conflict;
        }
        return AccessResponse(State(), account);
      }
      if account !in drafts { return NotFound; }
      var current := drafts[account];
      var open := Find(suspensions, OpenSuspensionOf(account));
      if current.activation.activatedAt.None? || current.revision != revision || open.None? { return Conflict; }
      var suspension := suspensions[open.value];
      suspension := suspension.(restoredAt := Some(now), restoredBy := Some(admin));
      suspension := suspension.(restoreKey := Some(key), restoreExpectedRevision := Some(revision));
      suspensions := suspensions[open.value := suspension];
      current := current.(revision := current.revision + 1, updatedAt := now);
      drafts := drafts[account := current];
      sellers := sellers + {account};
      return AccessResponse(State(), account);
    }

    /** One request, whichever it is: the whole answer and effect, and the invariant. */
    method Serve(q: Request, now: Instant) returns (r: Response)
      requires Inv(State())
      modifies this
      ensures (State(), r) == Handle(old(State()), q, now)
      ensures Inv(State())
    {
      HandleKeeps(State(), q, now);
      hide Inv;
      match q
      case SaveStore(a, expected, fields, matches) => r := SaveStore(a, expected, fields, matches, now);
      case SaveApplicantType(a, rev, t) => r := SaveApplicantType(a, rev, t, now);
      case VerifyNatural(a, rev, code, verified, verdict) => r := VerifyNatural(a, rev, code, verified, verdict, now);
      case SaveLegal(a, rev, id, name, rep, phone, matches) =>
        r := SaveLegal(a, rev, id, name, rep, phone, matches, now);
      case SaveBusiness(a, rev, c, name, d, phone, o, active) =>
        r := SaveBusiness(a, rev, c, name, d, phone, o, active, now);
      case SaveActivity(a, rev, p, c, address, lat, lon, h, sd, pu, area, ok) =>
        r := SaveActivity(a, rev, p, c, address, lat, lon, h, sd, pu, area, ok, now);
      case SaveAdditional(a, rev, name, role, phone, web, email, h, ok) =>
        r := SaveAdditional(a, rev, name, role, phone, web, email, h, ok, now);
      case Submit(a, rev, confirmed, key, digest) => r := Submit(a, rev, confirmed, key, digest, now);
      case ReviewApplication(a, admin, rev, d, reason, key) => r := Review(a, admin, rev, d, reason, key, now);
      case SaveAmendment(a, rev, response, url, id) => r := SaveAmendment(a, rev, response, url, id, now);
      case Resubmit(a, rev, id) => r := Resubmit(a, rev, id, now);
      case Activate(a, admin, rev, key) => r := Activate(a, admin, rev, key, now);
      case Suspend(a, admin, rev, reason, key) => r := Suspend(a, admin, rev, reason, key, now);
      case Restore(a, admin, rev, key) => r := Restore(a, admin, rev, key, now);
    }
  }
}
