/** What the seller endpoints guarantee over whole runs of requests. */
module SellerTheorems {
  import opened Wrappers
  import opened Utf16
  import opened SellerRows
  import opened SellerHandlers
  import opened SellerAudit
  import opened SellerInvariants

  type Schedule = seq<(Request, Instant)>

  lemma {:induction false} RunKeeps(db: Db, run: Schedule)
    requires Inv(db)
    ensures Inv(Run(db, run))
  {
    hide Inv, Handle;
    if run != [] {
      var last := |run| - 1;
      RunKeeps(db, run[..last]);
      HandleKeeps(Run(db, run[..last]), run[last].0, run[last].1);
    }
  }

  /** From empty tables, any requests by anyone in any order keep the invariant. */
  lemma EveryRunKeeps(run: Schedule)
    ensures Inv(Run(EMPTY_DB, run))
  {
    RunKeeps(EMPTY_DB, run);
  }

  // The audit trail.

  /** The revisions an application has consumed since its submission are exactly those from
      the submission's to the one before the current, each consumed by exactly one row. */
  lemma RevisionsConsumedOnce(run: Schedule, a: Guid, r: int)
    requires a in Run(EMPTY_DB, run).drafts && Run(EMPTY_DB, run).drafts[a].status.SUBMITTED?
    ensures var db := Run(EMPTY_DB, run);
            var row := db.drafts[a];
            row.submission.expectedRevision.Some? &&
            |EventsAt(db, a, r)| == if row.submission.expectedRevision.value <= r < row.revision then 1 else 0
  {
    hide EventsAt, Run, Log, Replay;
    EveryRunKeeps(run);
    assert AccountOk(Run(EMPTY_DB, run), a);
  }

  /** Replaying the audit rows in revision order rebuilds the stored review, activation,
      open suspension and time of the last change. */
  lemma AuditRebuildsRow(run: Schedule, a: Guid)
    requires a in Run(EMPTY_DB, run).drafts && Run(EMPTY_DB, run).drafts[a].status.SUBMITTED?
    ensures var db := Run(EMPTY_DB, run);
            var row := db.drafts[a];
            row.submission.expectedRevision.Some? &&
            Replay(Log(db, a, row.submission.expectedRevision.value, row.revision)) == Live(Stored(db, a, row))
  {
    hide EventsAt, Run, Log, Replay;
    EveryRunKeeps(run);
    assert AccountOk(Run(EMPTY_DB, run), a);
  }

  /** The one event that consumed revision `r`. */
  predicate Consumed(db: Db, a: Guid, r: int, e: Event) {
    EventsAt(db, a, r) == [e]
  }

  predicate ConsumedBy(db: Db, a: Guid, r: int, kind: Event -> bool) {
    |EventsAt(db, a, r)| == 1 && kind(EventsAt(db, a, r)[0])
  }

  /** A trail over the revisions from `first` up to `next`. It begins with the submission, and
      every later revision was consumed by an event that the one before it enables. */
  ghost predicate Chained(db: Db, a: Guid, first: int, next: int) {
    && ConsumedBy(db, a, first, (e: Event) => e.WasSubmitted?)
    && forall r, d, e :: first < r < next && Consumed(db, a, r - 1, d) && Consumed(db, a, r, e) ==> Follows(d, e)
  }

  /** Of two reviews the earlier asked for information and was answered by a resubmission, two
      suspensions have a restore between them, and after an activation come only suspensions
      and restores. */
  ghost predicate Alternating(db: Db, a: Guid, first: int, next: int) {
    forall q, r, d, e :: first <= q < r < next && Consumed(db, a, q, d) && Consumed(db, a, r, e) ==>
      && (d.WasReviewed? && e.WasReviewed? ==>
          d.status.NEEDS_INFORMATION? && ConsumedBy(db, a, q + 1, (x: Event) => x.WasResubmitted?))
      && (d.WasSuspended? && e.WasSuspended? ==> ConsumedBy(db, a, q + 1, (x: Event) => x.WasRestored?))
      && (AboutAccess(d) ==> e.WasSuspended? || e.WasRestored?)
  }

  /** The trail of every submitted application, revision by revision, in every run. */
  lemma TrailGrammar(run: Schedule, a: Guid)
    requires a in Run(EMPTY_DB, run).drafts && Run(EMPTY_DB, run).drafts[a].status.SUBMITTED?
    ensures var db := Run(EMPTY_DB, run);
            var row := db.drafts[a];
            && row.submission.expectedRevision.Some?
            && Chained(db, a, row.submission.expectedRevision.value, row.revision)
            && Alternating(db, a, row.submission.expectedRevision.value, row.revision)
  {
    hide EventsAt, Run, Log, Replay;
    EveryRunKeeps(run);
    var db := Run(EMPTY_DB, run);
    assert AccountOk(db, a);
    var row := db.drafts[a];
    var first := row.submission.expectedRevision.value;
    forall r | first <= r < row.revision ensures |EventsAt(db, a, r)| == 1 { RevisionsConsumedOnce(run, a, r); }
    AuditRebuildsRow(run, a);
    hide AccountOk, Chained, Alternating;
    TrailOfLog(db, a, first, row.revision);
  }

  lemma TrailOfLog(db: Db, a: Guid, first: int, next: int)
    requires first < next && forall r :: first <= r < next ==> |EventsAt(db, a, r)| == 1
    requires Replay(Log(db, a, first, next)).Live?
    ensures Chained(db, a, first, next) && Alternating(db, a, first, next)
  {
    hide EventsAt, Log, Replay;
    var log := Log(db, a, first, next);
    LogAt(db, a, first, next);
    LogGrammar(log);
    assert log[0] == EventsAt(db, a, first)[0];
    forall r, d, e | first < r < next && Consumed(db, a, r - 1, d) && Consumed(db, a, r, e) ensures Follows(d, e) {
      assert log[r - 1 - first] == d && log[r - first] == e;
    }
    forall q, r, d, e | first <= q < r < next && Consumed(db, a, q, d) && Consumed(db, a, r, e)
      ensures d.WasReviewed? && e.WasReviewed? ==>
                d.status.NEEDS_INFORMATION? && ConsumedBy(db, a, q + 1, (x: Event) => x.WasResubmitted?)
      ensures d.WasSuspended? && e.WasSuspended? ==> ConsumedBy(db, a, q + 1, (x: Event) => x.WasRestored?)
      ensures AboutAccess(d) ==> e.WasSuspended? || e.WasRestored?
    {
      var i, j := q - first, r - first;
      assert log[i] == d && log[j] == e && log[i + 1] == EventsAt(db, a, q + 1)[0];
      if d.WasReviewed? && e.WasReviewed? { ReviewsAlternate(log, i, j); }
      if d.WasSuspended? && e.WasSuspended? { SuspensionsDisjoint(log, i, j); }
      if AboutAccess(d) { AccessOnwards(log, i, j); }
    }
  }

  /** Before submission an account has no audit rows at all. */
  lemma DraftLeavesNoTrail(run: Schedule, a: Guid, r: int)
    requires a in Run(EMPTY_DB, run).drafts ==> Run(EMPTY_DB, run).drafts[a].status.DRAFT?
    ensures EventsAt(Run(EMPTY_DB, run), a, r) == []
  {
    hide EventsAt, Run, Log, Replay;
    EveryRunKeeps(run);
    assert AccountOk(Run(EMPTY_DB, run), a);
  }

  // Access.

  /** `/api/v1/seller/access`: the role row, no open suspension, and an approved, activated application. */
  predicate SellerAccess(db: Db, a: Guid) {
    && a in db.sellers && !Suspended(db, a)
    && a in db.drafts && db.drafts[a].status.SUBMITTED?
    && db.drafts[a].review.status == Some(APPROVED) && db.drafts[a].activation.activatedAt.Some?
  }

  datatype StatusAnswer = NoApplication | StillDraft | Tracking(sellerAccessEnabled: bool)

  /** `/api/v1/seller/registration/status`. */
  function StatusOfApplication(db: Db, a: Guid): StatusAnswer {
    if a !in db.drafts then NoApplication
    else
      var row := db.drafts[a];
      if !row.status.SUBMITTED? || row.applicant.completedStep != 6 || row.submission.trackingCode.None?
         || row.submission.submittedAt.None? || row.submission.accuracyConfirmedAt.None? || row.review.status.None?
      then StillDraft
      else Tracking(row.activation.activatedAt.Some? && !Suspended(db, a) && a in db.sellers)
  }

  /** The commerce module's list of active sellers, which reads the activation rows. */
  predicate ActiveSeller(db: Db, a: Guid) {
    a in db.sellers && HasActivation(db, a) && !Suspended(db, a)
  }

  /** The role row exists exactly while the application is activated and not suspended, so
      every access check in the product gives the answer the role row alone would give, and
      the `sellerRoleGranted` that activate, suspend and restore report is true although
      they compute it without reading the role. */
  lemma AccessChecksAgree(run: Schedule, a: Guid)
    ensures var db := Run(EMPTY_DB, run);
            && (a in db.sellers <==>
                a in db.drafts && db.drafts[a].activation.activatedAt.Some? && !Suspended(db, a))
            && (SellerAccess(db, a) <==> a in db.sellers)
            && (ActiveSeller(db, a) <==> a in db.sellers)
            && (AccessResponse(db, a).Access? <==> a in db.drafts)
            && (AccessResponse(db, a).Access? ==> (AccessResponse(db, a).view.sellerRoleGranted <==> a in db.sellers))
            && (StatusOfApplication(db, a).Tracking? <==> a in db.drafts && db.drafts[a].status.SUBMITTED?)
            && (StatusOfApplication(db, a).Tracking? ==>
                (StatusOfApplication(db, a).sellerAccessEnabled <==> a in db.sellers))
  {
    hide EventsAt, Run, Log, First;
    EveryRunKeeps(run);
    var db := Run(EMPTY_DB, run);
    assert AccountOk(db, a);
    if a in db.drafts && db.drafts[a].status.SUBMITTED? {
      ReplayEndsWithLast(Log(db, a, db.drafts[a].submission.expectedRevision.value, db.drafts[a].revision));
    }
  }

  // Amendments.

  /** An open amendment exists only while information is requested, it is the only one of
      its account, and it answers the current request: the consistency check in the save
      endpoint never refuses an atomic request. */
  lemma OpenAmendmentIsCurrent(run: Schedule, k: nat)
    requires k < |Run(EMPTY_DB, run).amendments| && Run(EMPTY_DB, run).amendments[k].status.OPEN?
    ensures var db := Run(EMPTY_DB, run);
            var x := db.amendments[k];
            && x.application in db.drafts
            && db.drafts[x.application].review.status == Some(NEEDS_INFORMATION)
            && x.baseRevision == db.drafts[x.application].revision
            && Some(x.reviewerReason) == db.drafts[x.application].review.reason
            && (forall i :: 0 <= i < |db.amendments| && OpenAmendmentOf(x.application)(db.amendments[i]) ==> i == k)
  {
    hide EventsAt, Run, Log, First, Replay;
    EveryRunKeeps(run);
    var db := Run(EMPTY_DB, run);
    OpenAmendmentAt(db, db.amendments[k].application, k);
    assert AccountOk(db, db.amendments[k].application);
  }
}
