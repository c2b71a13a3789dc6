/** What holds of the seller tables after every request. */
module SellerInvariants {
  import opened Wrappers
  import opened Utf16
  import opened SellerRows
  import opened SellerHandlers
  import opened SellerAudit

  /** The lifecycle columns as they are stored. */
  function Stored(db: Db, a: Guid, row: Draft): Lifecycle {
    var suspension := OpenSuspension(db, a);
    Lifecycle(row.review, row.activation,
              if suspension.Some? then Some(suspension.value.reason) else None, row.updatedAt)
  }

  /** An account without a submitted application has left no trace in the other tables. */
  ghost predicate Quiet(db: Db, a: Guid) {
    && (forall r :: EventsAt(db, a, r) == [])
    && OpenAmendment(db, a).None? && !Suspended(db, a) && !HasActivation(db, a) && a !in db.sellers
  }

  predicate SubmissionRecorded(row: Draft) {
    var s := row.submission;
    && s.key.Some? && s.expectedRevision.Some? && s.submittedAt.Some?
    && s.accuracyConfirmedAt.Some? && s.trackingCode.Some?
    && 1 <= s.expectedRevision.value < row.revision
    && row.applicant.completedStep == 6
  }

  /** Each revision from the submission on was consumed by exactly one row, and replaying
      those rows in order gives back the stored lifecycle. */
  ghost predicate Audited(db: Db, a: Guid, row: Draft)
    requires SubmissionRecorded(row)
  {
    var from := row.submission.expectedRevision.value;
    && (forall r :: |EventsAt(db, a, r)| == if from <= r < row.revision then 1 else 0)
    && Replay(Log(db, a, from, row.revision)) == Live(Stored(db, a, row))
  }

  predicate AccessConsistent(db: Db, a: Guid, row: Draft) {
    && (a in db.sellers <==> row.activation.activatedAt.Some? && !Suspended(db, a))
    && (HasActivation(db, a) <==> row.activation.activatedAt.Some?)
    && (row.activation != NO_ACTIVATION ==> row.activation.activatedAt.Some? && row.review.status == Some(APPROVED))
    && (Suspended(db, a) ==> row.activation.activatedAt.Some?)
  }

  predicate AmendmentConsistent(db: Db, a: Guid, row: Draft) {
    OpenAmendment(db, a).Some? ==>
      && row.review.status == Some(NEEDS_INFORMATION)
      && OpenAmendment(db, a).value.baseRevision == row.revision
      && Some(OpenAmendment(db, a).value.reviewerReason) == row.review.reason
  }

  ghost predicate AccountOk(db: Db, a: Guid) {
    if a !in db.drafts then Quiet(db, a)
    else
      var row := db.drafts[a];
      && 1 <= row.revision <= MAX_REVISION
      && 1 <= row.applicant.completedStep <= 6
      && match row.status
         case DRAFT =>
           Quiet(db, a) && row.submission == NO_SUBMISSION && row.review == NO_REVIEW && row.activation == NO_ACTIVATION
         case SUBMITTED =>
           SubmissionRecorded(row) && Audited(db, a, row) && AccessConsistent(db, a, row) && AmendmentConsistent(db, a, row)
  }

  /** The unique indexes: no two rows share a key, and an account has at most one
      activation, one open suspension and one open amendment. */
  ghost predicate UniqueRows(db: Db) {
    && (forall i, j :: 0 <= i < j < |db.reviews| ==> db.reviews[i].key != db.reviews[j].key)
    && (forall i, j :: 0 <= i < j < |db.activations| ==>
          db.activations[i].key != db.activations[j].key
          && db.activations[i].application != db.activations[j].application)
    && (forall i, j :: 0 <= i < j < |db.suspensions| ==>
          db.suspensions[i].key != db.suspensions[j].key
          && (db.suspensions[i].restoreKey.Some? ==> db.suspensions[i].restoreKey != db.suspensions[j].restoreKey))
    && (forall i, j :: 0 <= i < j < |db.suspensions| && db.suspensions[i].restoredAt.None? ==>
          db.suspensions[j].restoredAt.None? ==> db.suspensions[i].application != db.suspensions[j].application)
    && (forall i :: 0 <= i < |db.suspensions| ==>
          (db.suspensions[i].restoredAt.None? <==> db.suspensions[i].restoreKey.None?)
          && (db.suspensions[i].restoredAt.None? ==> db.suspensions[i].restoreExpectedRevision.None?))
    && (forall i, j :: 0 <= i < j < |db.amendments| ==> db.amendments[i].id != db.amendments[j].id)
    && (forall i, j :: 0 <= i < j < |db.amendments| && db.amendments[i].status.OPEN? ==>
          db.amendments[j].status.OPEN? ==> db.amendments[i].application != db.amendments[j].application)
  }

  ghost predicate Inv(db: Db) {
    UniqueRows(db) && forall a :: AccountOk(db, a)
  }

  /** Nothing the invariant speaks about changed for this account. */
  ghost predicate Untouched(db: Db, next: Db, b: Guid) {
    && (b in db.drafts <==> b in next.drafts) && (b in db.drafts ==> next.drafts[b] == db.drafts[b])
    && (b in db.sellers <==> b in next.sellers)
    && (forall r :: EventsAt(next, b, r) == EventsAt(db, b, r))
    && OpenAmendment(next, b) == OpenAmendment(db, b)
    && OpenSuspension(next, b) == OpenSuspension(db, b)
    && HasActivation(next, b) == HasActivation(db, b)
  }

  lemma UntouchedOk(db: Db, next: Db, b: Guid)
    requires AccountOk(db, b) && Untouched(db, next, b)
    ensures AccountOk(next, b)
  {
    hide EventsAt, Log, Replay, First, HasActivation;
    if b in db.drafts && db.drafts[b].status.SUBMITTED? {
      var row := db.drafts[b];
      LogFrame(db, next, b, row.submission.expectedRevision.value, row.revision);
    }
  }

  /** One transition: revision `r` of account `a` is consumed by event `e`, and by nothing else. */
  ghost predicate Consumes(db: Db, next: Db, a: Guid, r: int, e: Event) {
    && (forall s :: s != r ==> EventsAt(next, a, s) == EventsAt(db, a, s))
    && EventsAt(next, a, r) == EventsAt(db, a, r) + [e]
  }

  /** The audit trail grows by the event, so it keeps rebuilding the stored row when the
      lifecycle takes the same step. */
  lemma ConsumeKeepsAudit(db: Db, next: Db, a: Guid, e: Event)
    requires a in db.drafts && a in next.drafts
    requires db.drafts[a].status.SUBMITTED? && SubmissionRecorded(db.drafts[a]) && Audited(db, a, db.drafts[a])
    requires next.drafts[a].revision == db.drafts[a].revision + 1
    requires next.drafts[a].submission == db.drafts[a].submission
    requires next.drafts[a].applicant == db.drafts[a].applicant
    requires Consumes(db, next, a, db.drafts[a].revision, e)
    requires Apply(Live(Stored(db, a, db.drafts[a])), e) == Live(Stored(next, a, next.drafts[a]))
    ensures SubmissionRecorded(next.drafts[a]) && Audited(next, a, next.drafts[a])
  {
    hide EventsAt, Apply, Stored;
    var row := db.drafts[a];
    var from := row.submission.expectedRevision.value;
    assert |EventsAt(db, a, row.revision)| == 0;
    LogFrame(db, next, a, from, row.revision);
    ReplayAppend(Log(db, a, from, row.revision), e);
    assert Log(next, a, from, row.revision + 1) == Log(db, a, from, row.revision) + [e];
    forall r ensures |EventsAt(next, a, r)| == if from <= r < row.revision + 1 then 1 else 0 {
      if r != row.revision { assert EventsAt(next, a, r) == EventsAt(db, a, r); }
    }
  }

  /** The facts a handler has to establish about the account it works on. */
  lemma ConsumeKeepsAccount(db: Db, next: Db, a: Guid, e: Event)
    requires AccountOk(db, a) && a in db.drafts && a in next.drafts && db.drafts[a].status.SUBMITTED?
    requires next.drafts[a].status.SUBMITTED?
    requires next.drafts[a].revision == db.drafts[a].revision + 1 <= MAX_REVISION
    requires next.drafts[a].submission == db.drafts[a].submission
    requires next.drafts[a].applicant == db.drafts[a].applicant
    requires Consumes(db, next, a, db.drafts[a].revision, e)
    requires Apply(Live(Stored(db, a, db.drafts[a])), e) == Live(Stored(next, a, next.drafts[a]))
    requires AccessConsistent(next, a, next.drafts[a]) && AmendmentConsistent(next, a, next.drafts[a])
    ensures AccountOk(next, a)
  {
    hide EventsAt, Apply, Stored, Log, Replay, First, AccessConsistent, AmendmentConsistent, Consumes;
    ConsumeKeepsAudit(db, next, a, e);
  }

  // Each endpoint keeps the invariant.

  /** Only the tables and the submission columns matter to the audit trail. */
  lemma EventsFrame(db: Db, next: Db, b: Guid)
    requires next.reviews == db.reviews && next.amendments == db.amendments
    requires next.activations == db.activations && next.suspensions == db.suspensions
    requires forall r :: SubmitEvent(next, b, r) == SubmitEvent(db, b, r)
    ensures forall r :: EventsAt(next, b, r) == EventsAt(db, b, r)
  {
    hide Flat;
  }

  /** The draft steps and the store form: only the applicant columns of one draft change. */
  lemma DraftEditKeeps(db: Db, a: Guid, row: Draft)
    requires Inv(db)
    requires a in db.drafts ==> db.drafts[a].status.DRAFT? && db.drafts[a].submission == NO_SUBMISSION
    requires row.status.DRAFT? && row.submission == NO_SUBMISSION && row.review == NO_REVIEW && row.activation == NO_ACTIVATION
    requires 1 <= row.revision <= MAX_REVISION && 1 <= row.applicant.completedStep <= 6
    ensures Inv(Put(db, a, row))
  {
    hide EventsAt, Log, Replay, First;
    var next := Put(db, a, row);
    forall b ensures AccountOk(next, b) {
      assert AccountOk(db, b);
      DraftEditEvents(db, a, row, b);
      if b != a { UntouchedOk(db, next, b); }
    }
  }

  lemma DraftEditEvents(db: Db, a: Guid, row: Draft, b: Guid)
    requires a in db.drafts ==> db.drafts[a].submission == NO_SUBMISSION
    requires row.submission == NO_SUBMISSION
    ensures forall r :: EventsAt(Put(db, a, row), b, r) == EventsAt(db, b, r)
  {
    hide EventsAt;
    EventsFrame(db, Put(db, a, row), b);
  }

  predicate IsDraftRequest(q: Request) {
    || q.SaveStore? || q.SaveApplicantType? || q.VerifyNatural? || q.SaveLegal?
    || q.SaveBusiness? || q.SaveActivity? || q.SaveAdditional?
  }

  /** What a form request may do: nothing, create the row, or rewrite the applicant
      columns of a draft at the expected revision and consume that revision. */
  predicate DraftStep(db: Db, next: Db, a: Guid, now: Instant) {
    || next == db
    || (a !in db.drafts && a in next.drafts && next == Put(db, a, NewDraft(next.drafts[a].applicant.store, now)))
    || (&& a in db.drafts && a in next.drafts
        && db.drafts[a].status.DRAFT? && db.drafts[a].revision < MAX_REVISION
        && next == Put(db, a, Advance(db.drafts[a], next.drafts[a].applicant, now))
        && (db.drafts[a].applicant.completedStep == next.drafts[a].applicant.completedStep == 1
            || 2 <= next.drafts[a].applicant.completedStep <= 6))
  }

  lemma DraftRequestStep(db: Db, q: Request, now: Instant)
    requires IsDraftRequest(q) && (q.account in db.drafts ==> 1 <= db.drafts[q.account].revision <= MAX_REVISION)
    ensures DraftStep(db, Handle(db, q, now).0, q.account, now)
  {
    hide CleanText, IsNationalCode, CoordinatesValid, Refused;
  }

  lemma DraftRequestKeeps(db: Db, q: Request, now: Instant)
    requires Inv(db) && IsDraftRequest(q)
    ensures Inv(Handle(db, q, now).0)
  {
    hide EventsAt, Log, Replay, First, Handle;
    var a, next := q.account, Handle(db, q, now).0;
    assert AccountOk(db, a);
    DraftRequestStep(db, q, now);
    if next != db { DraftEditKeeps(db, a, next.drafts[a]); }
  }

  lemma SubmitKeeps(db: Db, a: Guid, revision: int, confirmed: bool, key: Guid, digest: Sha256, now: Instant)
    requires Inv(db)
    ensures Inv(OnSubmit(db, a, revision, confirmed, key, digest, now).0)
  {
    hide Replay, First, TrackingCode, TrackingCodeTaken, EventsAt, Log;
    var next := OnSubmit(db, a, revision, confirmed, key, digest, now).0;
    assert AccountOk(db, a);
    if next != db {
      forall b ensures AccountOk(next, b) {
        assert AccountOk(db, b);
        if b != a {
          EventsFrame(db, next, b);
          UntouchedOk(db, next, b);
        } else {
          FirstEvent(db, next, a, revision, WasSubmitted(now));
        }
      }
    }
  }

  lemma FirstEvent(db: Db, next: Db, a: Guid, revision: int, e: Event)
    requires next.reviews == db.reviews && next.amendments == db.amendments
    requires next.activations == db.activations && next.suspensions == db.suspensions
    requires forall r :: EventsAt(db, a, r) == []
    requires forall r :: SubmitEvent(next, a, r) == if r == revision then [e] else []
    ensures forall r :: EventsAt(next, a, r) == if r == revision then [e] else []
    ensures Replay(Log(next, a, revision, revision + 1)) == Apply(Unsubmitted, e)
  {
    forall r ensures EventsAt(next, a, r) == if r == revision then [e] else [] {
      assert EventsAt(db, a, r) == [];
    }
    assert Log(next, a, revision, revision) == [];
    assert Log(next, a, revision, revision + 1) == [] + [e];
    ReplayAppend([], e);
  }

  /** A new review row shows up in the log at its own application and revision only. */
  lemma ReviewEvents(db: Db, next: Db, x: ReviewRow, b: Guid, r: int)
    requires next == db.(drafts := next.drafts, reviews := db.reviews + [x])
    requires SubmitEvent(next, b, r) == SubmitEvent(db, b, r)
    requires ReviewEvent(b, r)(x) != [] ==> EventsAt(db, b, r) == []
    ensures EventsAt(next, b, r) == EventsAt(db, b, r) + ReviewEvent(b, r)(x)
  {
    FlatAppend(db.reviews, x, ReviewEvent(b, r));
    var e := ReviewEvent(b, r)(x);
    if e == [] {
      assert Flat(next.reviews, ReviewEvent(b, r)) == Flat(db.reviews, ReviewEvent(b, r));
    }
  }

  /** A committed review: its guard, and its whole effect. */
  predicate Reviews(db: Db, next: Db, x: ReviewRow) {
    var a := x.application;
    && a in db.drafts
    && var row := db.drafts[a];
    && row.status.SUBMITTED? && row.review.status == Some(UNDER_REVIEW) && !x.decision.UNDER_REVIEW?
    && row.revision == x.expectedRevision < MAX_REVISION
    && next == db.(
      drafts := db.drafts[a := row.(review := Review(Some(x.decision), x.reason, Some(x.reviewer), Some(x.createdAt)),
                                    revision := row.revision + 1, updatedAt := x.createdAt)],
      reviews := db.reviews + [x])
  }

  lemma ReviewedSelf(db: Db, next: Db, x: ReviewRow)
    requires Reviews(db, next, x) && AccountOk(db, x.application)
    ensures AccountOk(next, x.application)
  {
    hide Replay, EventsAt, Log, First;
    var a := x.application;
    forall r ensures EventsAt(next, a, r) == EventsAt(db, a, r) + ReviewEvent(a, r)(x) {
      ReviewEvents(db, next, x, a, r);
    }
    ConsumeKeepsAccount(db, next, a, WasReviewed(x.decision, x.reason, x.reviewer, x.createdAt));
  }

  lemma ReviewedOther(db: Db, next: Db, x: ReviewRow, b: Guid)
    requires Reviews(db, next, x) && b != x.application && AccountOk(db, b)
    ensures AccountOk(next, b)
  {
    hide AccountOk, EventsAt, First;
    forall r ensures EventsAt(next, b, r) == EventsAt(db, b, r) { ReviewEvents(db, next, x, b, r); }
    UntouchedOk(db, next, b);
  }

  lemma ReviewCommits(db: Db, a: Guid, admin: Guid, revision: int, decision: Option<Decision>, reason: Option<Text>,
                      key: Guid, now: Instant)
    requires a in db.drafts ==> 1 <= db.drafts[a].revision <= MAX_REVISION
    ensures var next := OnReview(db, a, admin, revision, decision, reason, key, now).0;
            next != db ==>
              && next.reviews == db.reviews + [next.reviews[|next.reviews| - 1]]
              && var x := next.reviews[|next.reviews| - 1];
                 x.application == a && Find(db.reviews, ReviewKeyIs(x.key)).None? && Reviews(db, next, x)
  {
    hide CleanText, ReviewKeyIs;
  }

  lemma UniqueReview(db: Db, next: Db, x: ReviewRow)
    requires UniqueRows(db) && Reviews(db, next, x) && Find(db.reviews, ReviewKeyIs(x.key)).None?
    ensures UniqueRows(next)
  {
    forall i | 0 <= i < |db.reviews| ensures db.reviews[i].key != x.key {
      assert !ReviewKeyIs(x.key)(db.reviews[i]);
    }
  }

  lemma ReviewKeeps(db: Db, a: Guid, admin: Guid, revision: int, decision: Option<Decision>, reason: Option<Text>,
                    key: Guid, now: Instant)
    requires Inv(db)
    ensures Inv(OnReview(db, a, admin, revision, decision, reason, key, now).0)
  {
    RevisionRange(db, a);
    ReviewCommits(db, a, admin, revision, decision, reason, key, now);
    hide AccountOk, OnReview, Reviews, UniqueRows, Find;
    var next := OnReview(db, a, admin, revision, decision, reason, key, now).0;
    if next != db {
      var x := next.reviews[|next.reviews| - 1];
      UniqueReview(db, next, x);
      forall b ensures AccountOk(next, b) {
        if b == a { ReviewedSelf(db, next, x); } else { ReviewedOther(db, next, x, b); }
      }
    }
  }

  /** The audit events after one amendment row was replaced. */
  lemma AmendmentEvents(db: Db, next: Db, k: nat, y: AmendmentRow, b: Guid, r: int)
    requires k < |db.amendments| && next == db.(drafts := next.drafts, amendments := db.amendments[k := y])
    requires SubmitEvent(next, b, r) == SubmitEvent(db, b, r)
    requires db.amendments[k].status.OPEN?
    requires ResubmitEvent(b, r)(y) != [] ==> EventsAt(db, b, r) == []
    ensures EventsAt(next, b, r) == EventsAt(db, b, r) + ResubmitEvent(b, r)(y)
  {
    FlatUpdate(db.amendments, k, y, ResubmitEvent(b, r));
    if ResubmitEvent(b, r)(y) != [] { assert Flat(db.amendments, ResubmitEvent(b, r)) == []; }
  }

  lemma NewAmendmentEvents(db: Db, next: Db, x: AmendmentRow, b: Guid, r: int)
    requires next == db.(amendments := db.amendments + [x]) && x.status.OPEN?
    ensures EventsAt(next, b, r) == EventsAt(db, b, r)
  {
    FlatAppend(db.amendments, x, ResubmitEvent(b, r));
    assert Flat(next.amendments, ResubmitEvent(b, r)) == Flat(db.amendments, ResubmitEvent(b, r));
  }

  /** The index of an open amendment is the only one of its account. */
  lemma OpenAmendmentAt(db: Db, a: Guid, k: nat)
    requires UniqueRows(db) && k < |db.amendments| && OpenAmendmentOf(a)(db.amendments[k])
    ensures OpenAmendment(db, a) == Some(db.amendments[k])
    ensures forall i :: 0 <= i < |db.amendments| && OpenAmendmentOf(a)(db.amendments[i]) ==> i == k
  {
    var found := Find(db.amendments, OpenAmendmentOf(a));
    assert found.Some?;
  }

  /** Saving an amendment touches no column the audit trail reads. */
  lemma AmendmentTableKeeps(db: Db, next: Db, a: Guid)
    requires Inv(db) && UniqueRows(next) && next == db.(amendments := next.amendments)
    requires a in db.drafts && db.drafts[a].status.SUBMITTED? && AmendmentConsistent(next, a, db.drafts[a])
    requires forall b, r :: EventsAt(next, b, r) == EventsAt(db, b, r)
    requires forall b :: b != a ==> OpenAmendment(next, b) == OpenAmendment(db, b)
    ensures Inv(next)
  {
    hide Replay, EventsAt, Log, First;
    forall b ensures AccountOk(next, b) {
      assert AccountOk(db, b);
      if b != a {
        UntouchedOk(db, next, b);
      } else {
        var row := db.drafts[a];
        LogFrame(db, next, a, row.submission.expectedRevision.value, row.revision);
      }
    }
  }

  lemma AmendmentKeeps(db: Db, a: Guid, revision: int, response: Option<Text>, url: UrlInput, newId: Guid, now: Instant)
    requires Inv(db)
    ensures Inv(OnSaveAmendment(db, a, revision, response, url, newId, now).0)
  {
    hide Replay, EventsAt, Log, CleanText, First;
    var next := OnSaveAmendment(db, a, revision, response, url, newId, now).0;
    var found := Find(db.amendments, OpenAmendmentOf(a));
    if next.amendments == db.amendments {
    } else if found.None? {
      var x := next.amendments[|db.amendments|];
      forall b, r ensures EventsAt(next, b, r) == EventsAt(db, b, r) { NewAmendmentEvents(db, next, x, b, r); }
      forall b ensures OpenAmendment(next, b) == if b == a then Some(x) else OpenAmendment(db, b) {
        FirstAppend(db.amendments, x, OpenAmendmentOf(b));
        NoFirst(db.amendments, OpenAmendmentOf(b));
      }
      AmendmentTableKeeps(db, next, a);
    } else {
      var k, y := found.value, next.amendments[found.value];
      forall b, r ensures EventsAt(next, b, r) == EventsAt(db, b, r) { AmendmentEvents(db, next, k, y, b, r); }
      OpenAmendmentAt(db, a, k);
      FirstReplaced(db.amendments, k, y, OpenAmendmentOf(a));
      forall b | b != a ensures OpenAmendment(next, b) == OpenAmendment(db, b) {
        FirstUnseen(db.amendments, k, y, OpenAmendmentOf(b));
      }
      AmendmentTableKeeps(db, next, a);
    }
  }

  lemma NoFirst<Row>(rows: seq<Row>, accepts: Row -> bool)
    ensures First(rows, accepts).None? <==> Find(rows, accepts).None?
  {
  }

  /** A committed resubmission: its guard, and its whole effect. */
  predicate Resubmits(db: Db, next: Db, k: nat, y: AmendmentRow) {
    && k < |db.amendments| && y.application in db.drafts
    && var a, x := y.application, db.amendments[k];
    && var row := db.drafts[a];
    && OpenAmendmentOf(a)(x) && x.baseRevision == row.revision < MAX_REVISION
    && y == x.(status := RESUBMITTED, resubmittedAt := y.resubmittedAt, updatedAt := y.updatedAt)
    && y.resubmittedAt.Some?
    && row.status.SUBMITTED? && row.review.status == Some(NEEDS_INFORMATION)
    && next == db.(
      drafts := db.drafts[a := row.(review := AWAITING, revision := row.revision + 1, updatedAt := y.resubmittedAt.value)],
      amendments := db.amendments[k := y])
  }

  lemma ResubmittedSelf(db: Db, next: Db, k: nat, y: AmendmentRow)
    requires UniqueRows(db) && Resubmits(db, next, k, y) && AccountOk(db, y.application)
    ensures AccountOk(next, y.application)
  {
    hide Replay, EventsAt, Log, First, UniqueRows;
    var a := y.application;
    OpenAmendmentAt(db, a, k);
    FirstReplaced(db.amendments, k, y, OpenAmendmentOf(a));
    forall r ensures EventsAt(next, a, r) == EventsAt(db, a, r) + ResubmitEvent(a, r)(y) {
      AmendmentEvents(db, next, k, y, a, r);
    }
    ConsumeKeepsAccount(db, next, a, WasResubmitted(y.resubmittedAt.value));
  }

  lemma ResubmittedOther(db: Db, next: Db, k: nat, y: AmendmentRow, b: Guid)
    requires Resubmits(db, next, k, y) && b != y.application && AccountOk(db, b)
    ensures AccountOk(next, b)
  {
    hide AccountOk, EventsAt, First;
    FirstUnseen(db.amendments, k, y, OpenAmendmentOf(b));
    forall r ensures EventsAt(next, b, r) == EventsAt(db, b, r) { AmendmentEvents(db, next, k, y, b, r); }
    UntouchedOk(db, next, b);
  }

  lemma ResubmitCommits(db: Db, a: Guid, revision: int, amendmentId: Guid, now: Instant)
    requires a in db.drafts ==> 1 <= db.drafts[a].revision <= MAX_REVISION
    ensures var next := OnResubmit(db, a, revision, amendmentId, now).0; var k := Find(db.amendments, AmendmentIdIs(amendmentId));
            next != db ==>
              && k.Some? && |next.amendments| == |db.amendments| && next.amendments[k.value].application == a
              && Resubmits(db, next, k.value, next.amendments[k.value])
  {
    hide AmendmentIdIs;
  }

  lemma UniqueResubmit(db: Db, next: Db, k: nat, y: AmendmentRow)
    requires UniqueRows(db) && Resubmits(db, next, k, y)
    ensures UniqueRows(next)
  {
  }

  lemma ResubmitKeeps(db: Db, a: Guid, revision: int, amendmentId: Guid, now: Instant)
    requires Inv(db)
    ensures Inv(OnResubmit(db, a, revision, amendmentId, now).0)
  {
    RevisionRange(db, a);
    ResubmitCommits(db, a, revision, amendmentId, now);
    hide AccountOk, OnResubmit, Resubmits, UniqueRows, AmendmentIdIs;
    var next := OnResubmit(db, a, revision, amendmentId, now).0;
    if next != db {
      var k := Find(db.amendments, AmendmentIdIs(amendmentId)).value;
      var y := next.amendments[k];
      UniqueResubmit(db, next, k, y);
      forall b ensures AccountOk(next, b) {
        if b == a { ResubmittedSelf(db, next, k, y); } else { ResubmittedOther(db, next, k, y, b); }
      }
    }
  }

  lemma ActivationEvents(db: Db, next: Db, x: ActivationRow, b: Guid, r: int)
    requires next == db.(drafts := next.drafts, sellers := next.sellers, activations := db.activations + [x])
    requires SubmitEvent(next, b, r) == SubmitEvent(db, b, r)
    requires ActivateEvent(b, r)(x) != [] ==> EventsAt(db, b, r) == []
    ensures EventsAt(next, b, r) == EventsAt(db, b, r) + ActivateEvent(b, r)(x)
  {
    FlatAppend(db.activations, x, ActivateEvent(b, r));
    if ActivateEvent(b, r)(x) == [] {
      assert Flat(next.activations, ActivateEvent(b, r)) == Flat(db.activations, ActivateEvent(b, r));
    }
  }

  lemma HasActivationAppend(db: Db, next: Db, x: ActivationRow, b: Guid)
    requires next.activations == db.activations + [x]
    ensures HasActivation(next, b) <==> HasActivation(db, b) || x.application == b
  {
    FirstAppend(db.activations, x, ActivationOf(b));
    NoFirst(db.activations, ActivationOf(b));
    NoFirst(next.activations, ActivationOf(b));
  }

  /** The unique indexes are about the tables alone. */
  lemma UniqueFrame(db: Db, next: Db)
    requires UniqueRows(db)
    requires next.reviews == db.reviews && next.amendments == db.amendments
    requires next.activations == db.activations && next.suspensions == db.suspensions
    ensures UniqueRows(next)
  {
  }

  lemma RevisionRange(db: Db, a: Guid)
    requires Inv(db)
    ensures a in db.drafts ==> 1 <= db.drafts[a].revision <= MAX_REVISION
  {
    assert AccountOk(db, a);
  }

  /** A committed activation: its guard, and its whole effect. */
  predicate Activates(db: Db, next: Db, x: ActivationRow) {
    var a := x.application;
    && a in db.drafts
    && var row := db.drafts[a];
    && row.status.SUBMITTED? && row.review.status == Some(APPROVED) && row.activation == NO_ACTIVATION
    && row.revision == x.expectedRevision < MAX_REVISION && !HasActivation(db, a)
    && next == db.(
      drafts := db.drafts[a := row.(activation := Activation(Some(x.createdAt), Some(x.activatedBy)),
                                    revision := row.revision + 1, updatedAt := x.createdAt)],
      sellers := db.sellers + {a}, activations := db.activations + [x])
  }

  lemma ActivatedSelf(db: Db, next: Db, x: ActivationRow)
    requires Activates(db, next, x) && AccountOk(db, x.application)
    ensures AccountOk(next, x.application)
  {
    hide Replay, EventsAt, Log, First, HasActivation;
    var a := x.application;
    HasActivationAppend(db, next, x, a);
    forall r ensures EventsAt(next, a, r) == EventsAt(db, a, r) + ActivateEvent(a, r)(x) {
      ActivationEvents(db, next, x, a, r);
    }
    ConsumeKeepsAccount(db, next, a, WasActivated(x.activatedBy, x.createdAt));
  }

  lemma ActivatedOther(db: Db, next: Db, x: ActivationRow, b: Guid)
    requires Activates(db, next, x) && b != x.application && AccountOk(db, b)
    ensures AccountOk(next, b)
  {
    hide AccountOk, EventsAt, First, HasActivation;
    HasActivationAppend(db, next, x, b);
    forall r ensures EventsAt(next, b, r) == EventsAt(db, b, r) { ActivationEvents(db, next, x, b, r); }
    UntouchedOk(db, next, b);
  }

  lemma ActivateKeeps(db: Db, a: Guid, admin: Guid, revision: int, key: Guid, now: Instant)
    requires Inv(db)
    ensures Inv(OnActivate(db, a, admin, revision, key, now).0)
  {
    RevisionRange(db, a);
    hide AccountOk, HasActivation, AccessResponse, First, UniqueRows;
    var next := OnActivate(db, a, admin, revision, key, now).0;
    if next != db {
      var x := ActivationRow(a, admin, key, revision, now);
      UniqueActivation(db, x);
      UniqueFrame(db.(activations := next.activations), next);
      forall b ensures AccountOk(next, b) {
        if b == a { ActivatedSelf(db, next, x); } else { ActivatedOther(db, next, x, b); }
      }
    }
  }

  /** The two checks before the insert are what the unique indexes need. */
  lemma UniqueActivation(db: Db, x: ActivationRow)
    requires UniqueRows(db)
    requires Find(db.activations, ActivationKeyIs(x.key)).None? && !HasActivation(db, x.application)
    ensures UniqueRows(db.(activations := db.activations + [x]))
  {
    forall i | 0 <= i < |db.activations|
      ensures db.activations[i].key != x.key && db.activations[i].application != x.application
    {
      assert !ActivationKeyIs(x.key)(db.activations[i]);
      assert !ActivationOf(x.application)(db.activations[i]);
    }
  }

  lemma SuspensionEvents(db: Db, next: Db, x: SuspensionRow, b: Guid, r: int)
    requires next == db.(drafts := next.drafts, sellers := next.sellers, suspensions := db.suspensions + [x])
    requires SubmitEvent(next, b, r) == SubmitEvent(db, b, r)
    requires x.restoreExpectedRevision.None?
    requires SuspendEvent(b, r)(x) != [] ==> EventsAt(db, b, r) == []
    ensures EventsAt(next, b, r) == EventsAt(db, b, r) + SuspendEvent(b, r)(x)
  {
    FlatAppend(db.suspensions, x, SuspendEvent(b, r));
    FlatAppend(db.suspensions, x, RestoreEvent(b, r));
    assert Flat(next.suspensions, RestoreEvent(b, r)) == Flat(db.suspensions, RestoreEvent(b, r));
    if SuspendEvent(b, r)(x) == [] {
      assert Flat(next.suspensions, SuspendEvent(b, r)) == Flat(db.suspensions, SuspendEvent(b, r));
    }
  }

  /** A committed suspension: its guard, and its whole effect. */
  predicate Suspends(db: Db, next: Db, x: SuspensionRow) {
    var a := x.application;
    && a in db.drafts
    && var row := db.drafts[a];
    && row.activation.activatedAt.Some? && row.revision == x.expectedRevision < MAX_REVISION && !Suspended(db, a)
    && x.restoredAt.None? && x.restoreExpectedRevision.None?
    && next == db.(
      drafts := db.drafts[a := row.(revision := row.revision + 1, updatedAt := x.createdAt)],
      sellers := db.sellers - {a}, suspensions := db.suspensions + [x])
  }

  lemma SuspendedSelf(db: Db, next: Db, x: SuspensionRow)
    requires Suspends(db, next, x) && AccountOk(db, x.application)
    ensures AccountOk(next, x.application)
  {
    hide Replay, EventsAt, Log, First;
    var a := x.application;
    FirstAppend(db.suspensions, x, OpenSuspensionOf(a));
    forall r ensures EventsAt(next, a, r) == EventsAt(db, a, r) + SuspendEvent(a, r)(x) {
      SuspensionEvents(db, next, x, a, r);
    }
    ConsumeKeepsAccount(db, next, a, WasSuspended(x.suspendedBy, x.reason, x.createdAt));
  }

  lemma SuspendedOther(db: Db, next: Db, x: SuspensionRow, b: Guid)
    requires Suspends(db, next, x) && b != x.application && AccountOk(db, b)
    ensures AccountOk(next, b)
  {
    hide AccountOk, EventsAt, First;
    FirstAppend(db.suspensions, x, OpenSuspensionOf(b));
    forall r ensures EventsAt(next, b, r) == EventsAt(db, b, r) { SuspensionEvents(db, next, x, b, r); }
    UntouchedOk(db, next, b);
  }

  lemma SuspendKeeps(db: Db, a: Guid, admin: Guid, revision: int, reason: Option<Text>, key: Guid, now: Instant)
    requires Inv(db)
    ensures Inv(OnSuspend(db, a, admin, revision, reason, key, now).0)
  {
    RevisionRange(db, a);
    hide AccountOk, AccessResponse, First, CleanText, UniqueRows;
    var next := OnSuspend(db, a, admin, revision, reason, key, now).0;
    if next != db {
      var x := next.suspensions[|db.suspensions|];
      UniqueSuspension(db, x);
      UniqueFrame(db.(suspensions := next.suspensions), next);
      forall b ensures AccountOk(next, b) {
        if b == a { SuspendedSelf(db, next, x); } else { SuspendedOther(db, next, x, b); }
      }
    }
  }

  lemma UniqueSuspension(db: Db, x: SuspensionRow)
    requires UniqueRows(db) && x.restoredAt.None? && x.restoreKey.None? && x.restoreExpectedRevision.None?
    requires Find(db.suspensions, SuspensionKeyIs(x.key)).None? && !Suspended(db, x.application)
    ensures UniqueRows(db.(suspensions := db.suspensions + [x]))
  {
    forall i | 0 <= i < |db.suspensions|
      ensures db.suspensions[i].key != x.key
      ensures db.suspensions[i].restoredAt.None? ==> db.suspensions[i].application != x.application
    {
      assert !SuspensionKeyIs(x.key)(db.suspensions[i]);
      assert !OpenSuspensionOf(x.application)(db.suspensions[i]);
    }
  }

  lemma RestorationEvents(db: Db, next: Db, k: nat, y: SuspensionRow, b: Guid, r: int)
    requires k < |db.suspensions|
    requires next == db.(drafts := next.drafts, sellers := next.sellers, suspensions := db.suspensions[k := y])
    requires SubmitEvent(next, b, r) == SubmitEvent(db, b, r)
    requires db.suspensions[k].restoreExpectedRevision.None?
    requires SuspendEvent(b, r)(y) == SuspendEvent(b, r)(db.suspensions[k])
    requires RestoreEvent(b, r)(y) != [] ==> EventsAt(db, b, r) == []
    ensures EventsAt(next, b, r) == EventsAt(db, b, r) + RestoreEvent(b, r)(y)
  {
    FlatUpdate(db.suspensions, k, y, SuspendEvent(b, r));
    FlatUpdate(db.suspensions, k, y, RestoreEvent(b, r));
    if RestoreEvent(b, r)(y) != [] { assert Flat(db.suspensions, RestoreEvent(b, r)) == []; }
  }

  /** The index of an open suspension is the only one of its account. */
  lemma OpenSuspensionAt(db: Db, a: Guid, k: nat)
    requires UniqueRows(db) && k < |db.suspensions| && OpenSuspensionOf(a)(db.suspensions[k])
    ensures OpenSuspension(db, a) == Some(db.suspensions[k])
    ensures forall i :: 0 <= i < |db.suspensions| && OpenSuspensionOf(a)(db.suspensions[i]) ==> i == k
  {
    var found := Find(db.suspensions, OpenSuspensionOf(a));
    assert found.Some?;
  }

  /** A committed restore: its guard, and its whole effect. */
  predicate Restores(db: Db, next: Db, k: nat, y: SuspensionRow) {
    && k < |db.suspensions| && y.application in db.drafts
    && var a, x := y.application, db.suspensions[k];
    && var row := db.drafts[a];
    && OpenSuspensionOf(a)(x) && x.restoreExpectedRevision.None?
    && y == x.(restoredAt := y.restoredAt, restoredBy := y.restoredBy,
               restoreKey := y.restoreKey, restoreExpectedRevision := Some(row.revision))
    && y.restoredAt.Some? && y.restoredBy.Some? && y.restoreKey.Some?
    && row.activation.activatedAt.Some? && row.revision < MAX_REVISION
    && next == db.(
      drafts := db.drafts[a := row.(revision := row.revision + 1, updatedAt := y.restoredAt.value)],
      sellers := db.sellers + {a}, suspensions := db.suspensions[k := y])
  }

  lemma RestoredSelf(db: Db, next: Db, k: nat, y: SuspensionRow)
    requires UniqueRows(db) && Restores(db, next, k, y) && AccountOk(db, y.application)
    ensures AccountOk(next, y.application)
  {
    hide Replay, EventsAt, Log, First, UniqueRows;
    var a := y.application;
    OpenSuspensionAt(db, a, k);
    FirstReplaced(db.suspensions, k, y, OpenSuspensionOf(a));
    forall r ensures EventsAt(next, a, r) == EventsAt(db, a, r) + RestoreEvent(a, r)(y) {
      RestorationEvents(db, next, k, y, a, r);
    }
    ConsumeKeepsAccount(db, next, a, WasRestored(y.restoredBy.value, y.restoredAt.value));
  }

  lemma RestoredOther(db: Db, next: Db, k: nat, y: SuspensionRow, b: Guid)
    requires Restores(db, next, k, y) && b != y.application && AccountOk(db, b)
    ensures AccountOk(next, b)
  {
    hide AccountOk, EventsAt, First;
    FirstUnseen(db.suspensions, k, y, OpenSuspensionOf(b));
    forall r ensures EventsAt(next, b, r) == EventsAt(db, b, r) { RestorationEvents(db, next, k, y, b, r); }
    UntouchedOk(db, next, b);
  }

  lemma OpenRowFields(db: Db, k: nat)
    requires UniqueRows(db) && k < |db.suspensions| && db.suspensions[k].restoredAt.None?
    ensures db.suspensions[k].restoreExpectedRevision.None?
  {
  }

  lemma RestoreKeeps(db: Db, a: Guid, admin: Guid, revision: int, key: Guid, now: Instant)
    requires Inv(db)
    ensures Inv(OnRestore(db, a, admin, revision, key, now).0)
  {
    RevisionRange(db, a);
    hide AccountOk, AccessResponse, First, UniqueRows;
    var next := OnRestore(db, a, admin, revision, key, now).0;
    if next != db {
      var k := Find(db.suspensions, OpenSuspensionOf(a)).value;
      var y := next.suspensions[k];
      UniqueRestoration(db, k, y);
      UniqueFrame(db.(suspensions := next.suspensions), next);
      OpenRowFields(db, k);
      forall b ensures AccountOk(next, b) {
        if b == a { RestoredSelf(db, next, k, y); } else { RestoredOther(db, next, k, y, b); }
      }
    }
  }

  lemma UniqueRestoration(db: Db, k: nat, y: SuspensionRow)
    requires UniqueRows(db) && k < |db.suspensions| && db.suspensions[k].restoredAt.None?
    requires y == db.suspensions[k].(restoredAt := y.restoredAt, restoredBy := y.restoredBy,
                                     restoreKey := y.restoreKey, restoreExpectedRevision := y.restoreExpectedRevision)
    requires y.restoredAt.Some? && y.restoreKey.Some? && Find(db.suspensions, RestoreKeyIs(y.restoreKey.value)).None?
    ensures UniqueRows(db.(suspensions := db.suspensions[k := y]))
  {
    forall i | 0 <= i < |db.suspensions| ensures db.suspensions[i].restoreKey != y.restoreKey {
      assert !RestoreKeyIs(y.restoreKey.value)(db.suspensions[i]);
    }
  }

  /** Every request keeps the invariant. */
  lemma HandleKeeps(db: Db, q: Request, now: Instant)
    requires Inv(db)
    ensures Inv(Handle(db, q, now).0)
  {
    hide Inv;
    match q
    case Submit(a, r, confirmed, key, digest) => SubmitKeeps(db, a, r, confirmed, key, digest, now);
    case ReviewApplication(a, admin, r, d, reason, key) => ReviewKeeps(db, a, admin, r, d, reason, key, now);
    case SaveAmendment(a, r, response, url, id) => AmendmentKeeps(db, a, r, response, url, id, now);
    case Resubmit(a, r, id) => ResubmitKeeps(db, a, r, id, now);
    case Activate(a, admin, r, key) => ActivateKeeps(db, a, admin, r, key, now);
    case Suspend(a, admin, r, reason, key) => SuspendKeeps(db, a, admin, r, reason, key, now);
    case Restore(a, admin, r, key) => RestoreKeeps(db, a, admin, r, key, now);
    case _ => DraftRequestKeeps(db, q, now);
  }
}
