/**
 The tables behind a seller application: one draft row per account, the audit
 rows that reviews, amendments, activations and suspensions leave behind, and
 the SELLER role assignments. Nullable columns are `Option`s.
 */
module SellerRows {
  import opened Wrappers
  import opened Utf16

  datatype Guid = Guid(text: Text)
  type Instant = int

  const EMPTY_GUID := Guid(Ascii("00000000-0000-0000-0000-000000000000"))
  const MAX_REVISION := 2147483647

  /** One value per field of the first registration step. */
  datatype PerField<+T> = PerField(storeName: T, ownerName: T, phone: T, city: T, address: T, postalCode: T)
  type StoreFields = PerField<Text>

  datatype ApplicantType = NATURAL | LEGAL
  datatype IdentityStatus = VERIFIED | RECORDED
  datatype OfferingType = GOOD | SERVICE | BOTH
  datatype DraftStatus = DRAFT | SUBMITTED
  datatype ReviewStatus = UNDER_REVIEW | NEEDS_INFORMATION | APPROVED | REJECTED
  datatype AmendmentStatus = OPEN | RESUBMITTED

  datatype Identity = Identity(
    status: Option<IdentityStatus>, nationalCode: Option<Text>, legalNationalId: Option<Text>,
    legalName: Option<Text>, representativeName: Option<Text>, representativePhone: Option<Text>)
  datatype Business = Business(
    categoryId: Option<Guid>, name: Option<Text>, description: Option<Text>,
    phone: Option<Text>, offering: Option<OfferingType>)
  datatype Activity = Activity(
    provinceId: Option<Guid>, cityId: Option<Guid>, address: Option<Text>,
    latitude: Option<real>, longitude: Option<real>, hours: Option<Text>,
    sellerDelivery: Option<bool>, pickup: Option<bool>, serviceArea: Option<Text>)
  datatype Additional = Additional(
    contactName: Option<Text>, contactRole: Option<Text>, backupPhone: Option<Text>,
    websiteOrSocial: Option<Text>, businessEmail: Option<Text>, responseHours: Option<Text>)
  datatype Submission = Submission(
    key: Option<Guid>, expectedRevision: Option<int>, submittedAt: Option<Instant>,
    accuracyConfirmedAt: Option<Instant>, trackingCode: Option<Text>)
  datatype Review = Review(
    status: Option<ReviewStatus>, reason: Option<Text>, reviewedBy: Option<Guid>, reviewedAt: Option<Instant>)
  datatype Activation = Activation(activatedAt: Option<Instant>, activatedBy: Option<Guid>)

  const NO_IDENTITY := Identity(None, None, None, None, None, None)
  const NO_BUSINESS := Business(None, None, None, None, None)
  const NO_ACTIVITY := Activity(None, None, None, None, None, None, None, None, None)
  const NO_ADDITIONAL := Additional(None, None, None, None, None, None)
  const NO_SUBMISSION := Submission(None, None, None, None, None)
  const NO_REVIEW := Review(None, None, None, None)
  const NO_ACTIVATION := Activation(None, None)

  /** What the applicant filled in; none of it changes after submission. */
  datatype Applicant = Applicant(
    store: StoreFields, applicantType: Option<ApplicantType>, identity: Identity,
    business: Business, activity: Activity, additional: Additional, completedStep: int)

  datatype Draft = Draft(
    applicant: Applicant, status: DraftStatus, revision: int,
    submission: Submission, review: Review, activation: Activation, updatedAt: Instant)

  datatype ReviewRow = ReviewRow(
    application: Guid, reviewer: Guid, key: Guid, expectedRevision: int,
    decision: ReviewStatus, reason: Option<Text>, createdAt: Instant)
  datatype AmendmentRow = AmendmentRow(
    id: Guid, application: Guid, baseRevision: int, status: AmendmentStatus,
    reviewerReason: Text, responseText: Text, referenceUrl: Option<Text>,
    createdAt: Instant, updatedAt: Instant, resubmittedAt: Option<Instant>)
  datatype ActivationRow = ActivationRow(
    application: Guid, activatedBy: Guid, key: Guid, expectedRevision: int, createdAt: Instant)
  datatype SuspensionRow = SuspensionRow(
    application: Guid, suspendedBy: Guid, key: Guid, expectedRevision: int, reason: Text, createdAt: Instant,
    restoredAt: Option<Instant>, restoredBy: Option<Guid>, restoreKey: Option<Guid>,
    restoreExpectedRevision: Option<int>)

  datatype Db = Db(
    drafts: map<Guid, Draft>, reviews: seq<ReviewRow>, amendments: seq<AmendmentRow>,
    activations: seq<ActivationRow>, suspensions: seq<SuspensionRow>, sellers: set<Guid>)

  const EMPTY_DB := Db(map[], [], [], [], [], {})

  /** `SingleOrDefault`: the index of the first row the filter accepts. The unique
      indexes, proved as invariants in `SellerInvariants`, make it the only one. */
  function Find<Row>(rows: seq<Row>, accepts: Row -> bool): (r: Option<nat>)
    ensures r.Some? ==> r.value < |rows| && accepts(rows[r.value])
    ensures forall i :: 0 <= i < r.GetOr(|rows|) ==> !accepts(rows[i])
  {
    FindFrom(rows, accepts, 0)
  }

  function FindFrom<Row>(rows: seq<Row>, accepts: Row -> bool, from: nat): (r: Option<nat>)
    requires from <= |rows|
    ensures r.Some? ==> from <= r.value < |rows| && accepts(rows[r.value])
    ensures forall i :: from <= i < r.GetOr(|rows|) ==> !accepts(rows[i])
    decreases |rows| - from
  {
    if from == |rows| then None
    else if accepts(rows[from]) then Some(from)
    else FindFrom(rows, accepts, from + 1)
  }

  // The row filters of the endpoints' queries, as first-class predicates.
  function ReviewKeyIs(key: Guid): ReviewRow -> bool { (x: ReviewRow) => x.key == key }
  function ActivationKeyIs(key: Guid): ActivationRow -> bool { (x: ActivationRow) => x.key == key }
  function ActivationOf(account: Guid): ActivationRow -> bool { (x: ActivationRow) => x.application == account }
  function SuspensionKeyIs(key: Guid): SuspensionRow -> bool { (x: SuspensionRow) => x.key == key }
  function RestoreKeyIs(key: Guid): SuspensionRow -> bool { (x: SuspensionRow) => x.restoreKey == Some(key) }
  function OpenSuspensionOf(account: Guid): SuspensionRow -> bool {
    (x: SuspensionRow) => x.application == account && x.restoredAt.None?
  }
  function OpenAmendmentOf(account: Guid): AmendmentRow -> bool {
    (x: AmendmentRow) => x.application == account && x.status.OPEN?
  }
  function AmendmentIdIs(id: Guid): AmendmentRow -> bool { (x: AmendmentRow) => x.id == id }

  /** The row itself rather than its index. */
  function First<Row>(rows: seq<Row>, accepts: Row -> bool): Option<Row> {
    match Find(rows, accepts)
    case None => None
    case Some(i) => Some(rows[i])
  }

  function OpenSuspension(db: Db, account: Guid): Option<SuspensionRow> {
    First(db.suspensions, OpenSuspensionOf(account))
  }

  function OpenAmendment(db: Db, account: Guid): Option<AmendmentRow> {
    First(db.amendments, OpenAmendmentOf(account))
  }

  predicate HasActivation(db: Db, account: Guid) {
    Find(db.activations, ActivationOf(account)).Some?
  }

  predicate Suspended(db: Db, account: Guid) {
    OpenSuspension(db, account).Some?
  }

  lemma FirstAppend<Row>(rows: seq<Row>, x: Row, accepts: Row -> bool)
    ensures First(rows + [x], accepts) ==
            if First(rows, accepts).Some? then First(rows, accepts) else if accepts(x) then Some(x) else None
  {
    var before, after := Find(rows, accepts), Find(rows + [x], accepts);
    assert forall i :: 0 <= i < |rows| ==> (rows + [x])[i] == rows[i];
    if before.Some? {
      assert accepts((rows + [x])[before.value]);
    } else if accepts(x) {
      assert accepts((rows + [x])[|rows|]);
    }
  }

  /** Replacing a row the query does not see by another it does not see. */
  lemma FirstUnseen<Row>(rows: seq<Row>, k: nat, y: Row, accepts: Row -> bool)
    requires k < |rows| && !accepts(rows[k]) && !accepts(y)
    ensures First(rows[k := y], accepts) == First(rows, accepts)
  {
    var before, after := Find(rows, accepts), Find(rows[k := y], accepts);
    if before.Some? { assert accepts(rows[k := y][before.value]); }
    if after.Some? { assert accepts(rows[after.value]); }
  }

  /** Replacing the only row the query sees. */
  lemma FirstReplaced<Row>(rows: seq<Row>, k: nat, y: Row, accepts: Row -> bool)
    requires k < |rows| && accepts(rows[k])
    requires forall i :: 0 <= i < |rows| && accepts(rows[i]) ==> i == k
    ensures First(rows[k := y], accepts) == if accepts(y) then Some(y) else None
  {
    var after := Find(rows[k := y], accepts);
    if accepts(y) { assert accepts(rows[k := y][k]); }
    assert after.Some? ==> accepts(rows[k := y][after.value]);
  }
}
