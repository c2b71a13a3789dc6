/**
 What submission, review, amendment, activation, suspension and restore answer and store, in
 terms of the request's own fields and the tables before it, and what follows over runs: who
 approved an activated application, and what every answer about access means.
 */
module SellerDecisions {
  import opened Wrappers
  import opened Utf16
  import opened SellerRows
  import opened SellerHandlers
  import opened SellerAudit
  import opened SellerInvariants
  import opened SellerTheorems
  import opened SellerReplay
  import opened SellerEffects

  // Submission.

  /** "HNA-" and sixteen upper-case hexadecimal digits that spell the first eight bytes. */
  predicate Spells(code: Text, digest: seq<int>)
    requires |digest| >= 8
  {
    && |code| == 20 && code[0] == 'H' as int && code[1] == 'N' as int && code[2] == 'A' as int && code[3] == '-' as int
    && forall i :: 0 <= i < 8 ==>
         && IsHex(code[4 + 2 * i]) && IsHex(code[5 + 2 * i])
         && !('a' as int <= code[4 + 2 * i] <= 'f' as int) && !('a' as int <= code[5 + 2 * i] <= 'f' as int)
         && 16 * HexValue(code[4 + 2 * i]) + HexValue(code[5 + 2 * i]) == digest[i]
  }

  lemma {:induction false} HexSpells(bytes: seq<int>, i: nat)
    requires i < |bytes| && forall j :: 0 <= j < |bytes| ==> 0 <= bytes[j] < 256
    ensures var high, low := HexText(bytes)[2 * i], HexText(bytes)[2 * i + 1];
            && IsHex(high) && IsHex(low) && 16 * HexValue(high) + HexValue(low) == bytes[i]
            && !('a' as int <= high <= 'f' as int) && !('a' as int <= low <= 'f' as int)
  {
    if i > 0 {
      HexSpells(bytes[1..], i - 1);
      assert HexText(bytes)[2 * i] == HexText(bytes[1..])[2 * (i - 1)];
      assert HexText(bytes)[2 * i + 1] == HexText(bytes[1..])[2 * (i - 1) + 1];
    }
  }

  lemma TrackingCodeSpells(digest: Sha256)
    ensures Spells(TrackingCode(digest), digest)
  {
    var hex := HexText(digest[..8]);
    forall i | 0 <= i < 8
      ensures TrackingCode(digest)[4 + 2 * i] == hex[2 * i] && TrackingCode(digest)[5 + 2 * i] == hex[2 * i + 1]
    {
    }
    forall i | 0 <= i < 8
      ensures var high, low := hex[2 * i], hex[2 * i + 1];
              && IsHex(high) && IsHex(low) && 16 * HexValue(high) + HexValue(low) == digest[i]
              && !('a' as int <= high <= 'f' as int) && !('a' as int <= low <= 'f' as int)
    {
      HexSpells(digest[..8], i);
    }
    hide IsHex, HexValue, HexText;
  }

  predicate SubmitValid(q: Request)
    requires q.Submit?
  {
    Revision(q.revision) && q.confirmed && q.key != EMPTY_GUID
  }

  /** The row was submitted with this key and revision. */
  predicate SubmittedWith(db: Db, q: Request)
    requires q.Submit?
  {
    && q.account in db.drafts
    && var row := db.drafts[q.account];
       && row.status == SUBMITTED && row.submission.key == Some(q.key)
       && row.submission.expectedRevision == Some(q.revision)
       && row.submission.submittedAt.Some? && row.submission.accuracyConfirmedAt.Some?
  }

  /** Another account has this very code. */
  predicate CodeTaken(db: Db, a: Guid, code: Text) {
    exists b <- db.drafts.Keys :: b != a && db.drafts[b].submission.trackingCode == Some(code)
  }

  /** What submission stores at once, and what it answers first and again. */
  lemma SubmitStored(db: Db, q: Request, now: Instant)
    requires q.Submit?
    ensures var (next, r) := Handle(db, q, now); var a := q.account;
            && (!SubmitValid(q) ==> r == Invalid)
            && (SubmitValid(q) && !AtStep(db, a, 6, 6, q.revision) ==>
                  r == if a !in db.drafts then NotFound
                       else if !SubmittedWith(db, q) then Conflict
                       else var row := db.drafts[a];
                         SubmittedAs(row.revision, row.submission.submittedAt, row.submission.trackingCode, row.review.status))
            && (SubmitValid(q) && AtStep(db, a, 6, 6, q.revision) ==>
                  exists code :: Spells(code, q.digest)
                    && r == if CodeTaken(db, a, code) then Unavailable
                            else SubmittedAs(q.revision + 1, Some(now), Some(code), Some(UNDER_REVIEW)))
            && (!(SubmitValid(q) && AtStep(db, a, 6, 6, q.revision) && r.SubmittedAs?) ==> next == db)
    ensures var (next, r) := Handle(db, q, now); var a := q.account;
            SubmitValid(q) && AtStep(db, a, 6, 6, q.revision) && r.SubmittedAs? ==>
              && OnlyDraft(db, next, a)
              && var x, y := db.drafts[a], next.drafts[a];
                 && y.status == SUBMITTED && y.revision == x.revision + 1 && y.updatedAt == now
                 && y.applicant == x.applicant && y.activation == x.activation
                 && y.submission == Submission(Some(q.key), Some(q.revision), Some(now), Some(now), r.trackingCode)
                 && y.review == x.review.(status := Some(UNDER_REVIEW))
  {
    TrackingCodeSpells(q.digest);
    hide TrackingCode, Spells;
  }

  /** The receipt of a submission never changes: whoever sends it again, at any later time, is
      told the same time and tracking code, with the revision and review as they then stand. */
  lemma SubmissionReceipt(before: Schedule, q: Request, t: Instant, between: Schedule, later: Instant)
    requires q.Submit? && Handle(Run(EMPTY_DB, before), q, t).1.SubmittedAs?
    ensures var first := Handle(Run(EMPTY_DB, before), q, t).1;
            var db := Run(EMPTY_DB, before + [(q, t)] + between);
            && q.account in db.drafts
            && Handle(db, q, later) == (db, SubmittedAs(db.drafts[q.account].revision, first.submittedAt,
                                                         first.trackingCode, db.drafts[q.account].review.status))
  {
    var start, done := Run(EMPTY_DB, before), Run(EMPTY_DB, before + [(q, t)]);
    var db := Run(EMPTY_DB, before + [(q, t)] + between);
    assert (before + [(q, t)])[..|before|] == before;
    SubmitStored(start, q, t);
    SubmitStored(db, q, later);
    hide Handle, Run, Spells;
    SubmittedWithNow(start, done, q, t);
    SubmissionIsFinal(before + [(q, t)], between, q.account);
    hide AtStep, OnlyDraft;
    NotAtStep(db, q);
  }

  lemma NotAtStep(db: Db, q: Request)
    requires q.Submit? && SubmittedWith(db, q)
    ensures !AtStep(db, q.account, 6, 6, q.revision)
  {
  }

  lemma SubmittedWithNow(db: Db, next: Db, q: Request, t: Instant)
    requires q.Submit? && Handle(db, q, t).1.SubmittedAs? && next == Handle(db, q, t).0
    ensures SubmitValid(q) && SubmittedWith(next, q)
    ensures var r := Handle(db, q, t).1; var s := next.drafts[q.account].submission;
            s.submittedAt == r.submittedAt && s.trackingCode == r.trackingCode
  {
    hide TrackingCode, TrackingCodeTaken;
  }

  // Review.

  /** The status each decision stands for. */
  predicate Means(decision: Decision, status: ReviewStatus) {
    match decision
    case DecideApproved => status.APPROVED?
    case DecideRejected => status.REJECTED?
    case DecideNeedsInformation => status.NEEDS_INFORMATION?
  }

  /** A rejection and a request for information need a reason; a reason that is given must clean. */
  predicate ReviewValid(q: Request)
    requires q.ReviewApplication?
  {
    && Revision(q.revision) && q.decision.Some? && q.key != EMPTY_GUID
    && OptionalClean(q.reason, 500)
    && (q.decision.value.DecideApproved? || q.reason.Some?)
  }

  predicate UnderReview(db: Db, a: Guid, revision: int) {
    && a in db.drafts && db.drafts[a].status == SUBMITTED
    && db.drafts[a].review.status == Some(UNDER_REVIEW) && db.drafts[a].revision == revision
  }

  predicate ReviewKeyUsed(db: Db, key: Guid) {
    exists i :: 0 <= i < |db.reviews| && db.reviews[i].key == key
  }

  /** A decision with a new key: when it is taken, and what the row and the new audit row hold. */
  lemma ReviewStored(db: Db, q: Request, now: Instant)
    requires q.ReviewApplication? && !ReviewKeyUsed(db, q.key)
    ensures var (next, r) := Handle(db, q, now); var a := q.account;
            && (r == Invalid <==> !ReviewValid(q))
            && (r == NotFound <==> ReviewValid(q) && a !in db.drafts)
            && (r == Conflict <==> ReviewValid(q) && a in db.drafts && !UnderReview(db, a, q.revision))
            && (r.Reviewed? <==> ReviewValid(q) && UnderReview(db, a, q.revision))
            && (!r.Reviewed? ==> next == db)
    ensures var (next, r) := Handle(db, q, now); var a := q.account;
            r.Reviewed? ==>
              && OtherDrafts(db, next, a) && next.amendments == db.amendments && next.activations == db.activations
              && next.suspensions == db.suspensions && next.sellers == db.sellers
              && |next.reviews| == |db.reviews| + 1 && next.reviews[..|db.reviews|] == db.reviews
              && var x, y, row := db.drafts[a], next.drafts[a], next.reviews[|db.reviews|];
                 && y.revision == x.revision + 1 == r.revision && y.review == r.review && y.updatedAt == now
                 && y.status == x.status && y.applicant == x.applicant && y.submission == x.submission
                 && y.activation == x.activation
                 && y.review.status.Some? && Means(q.decision.value, y.review.status.value)
                 && y.review.reason == CleanText(q.reason, 500)
                 && y.review.reviewedBy == Some(q.admin) && y.review.reviewedAt == Some(now)
                 && row.application == a && row.reviewer == q.admin && row.key == q.key
                 && row.expectedRevision == q.revision && Means(q.decision.value, row.decision)
                 && row.reason == CleanText(q.reason, 500) && row.createdAt == now
  {
    assert CleanText(None, 500) == None;
    hide CleanText;
  }

  /** The same decision sent again: the answer is the application as it now stands. */
  lemma ReviewRepeated(db: Db, q: Request, now: Instant, i: nat)
    requires Inv(db) && q.ReviewApplication? && ReviewValid(q)
    requires i < |db.reviews| && db.reviews[i].key == q.key
    ensures var x := db.reviews[i]; var a := q.account;
            var same := x.application == a && x.reviewer == q.admin && x.expectedRevision == q.revision
                        && Means(q.decision.value, x.decision) && x.reason == CleanText(q.reason, 500);
            && (same ==> a in db.drafts)
            && Handle(db, q, now) ==
                 (db, if same then Reviewed(db.drafts[a].revision, db.drafts[a].review) else Conflict)
  {
    ReviewKeyAt(db, i);
    assert KeyTaken(db, q);
    KeyHasRow(db, q);
    hide CleanText, AccountOk, UniqueRows;
  }

  // Amendments.

  /** Information is requested at this revision. */
  predicate Requested(db: Db, a: Guid, revision: int) {
    && a in db.drafts && db.drafts[a].status == SUBMITTED
    && db.drafts[a].review.status == Some(NEEDS_INFORMATION) && db.drafts[a].revision == revision
  }

  predicate AmendmentValid(q: Request)
    requires q.SaveAmendment?
  {
    Revision(q.revision) && CleanText(q.responseText, 2000).Some? && !q.url.BadUrl?
  }

  function ReferenceOf(q: Request): Option<Text>
    requires q.SaveAmendment?
  {
    match q.url case GoodUrl(url) => Some(url) case _ => None
  }

  predicate AmendmentAnswers(q: Request, x: AmendmentRow, now: Instant)
    requires q.SaveAmendment?
  {
    && x.application == q.account && Some(x.responseText) == CleanText(q.responseText, 2000)
    && x.referenceUrl == ReferenceOf(q) && x.updatedAt == now && x.status == OPEN && x.resubmittedAt.None?
  }

  /** The first answer to a request for information creates the open amendment. */
  lemma AmendmentCreated(db: Db, q: Request, now: Instant)
    requires q.SaveAmendment?
    requires forall i :: 0 <= i < |db.amendments| && db.amendments[i].application == q.account ==> !db.amendments[i].status.OPEN?
    ensures var (next, r) := Handle(db, q, now); var a := q.account;
            var idUsed := exists i :: 0 <= i < |db.amendments| && db.amendments[i].id == q.newId;
            && (r == Invalid <==> !AmendmentValid(q))
            && (r == NotFound <==> AmendmentValid(q) && a !in db.drafts)
            && (r.AmendmentSaved? <==>
                  AmendmentValid(q) && Requested(db, a, q.revision) && db.drafts[a].review.reason.Some? && !idUsed)
            && (r == Invalid || r == NotFound || r.AmendmentSaved? || r == Conflict) && (!r.AmendmentSaved? ==> next == db)
            && (r.AmendmentSaved? ==>
                && next == db.(amendments := next.amendments) && next.amendments == db.amendments + [r.row]
                && AmendmentAnswers(q, r.row, now) && r.row.id == q.newId && r.row.createdAt == now
                && r.row.baseRevision == q.revision && Some(r.row.reviewerReason) == db.drafts[a].review.reason)
  {
    hide CleanText;
    var used := Find(db.amendments, AmendmentIdIs(q.newId));
    if used.Some? { assert db.amendments[used.value].id == q.newId; }
  }

  /** Later answers rewrite it in place: only the text, the reference and the time change. */
  lemma AmendmentRewritten(db: Db, q: Request, now: Instant, k: nat)
    requires Inv(db) && q.SaveAmendment? && k < |db.amendments|
    requires db.amendments[k].application == q.account && db.amendments[k].status.OPEN?
    ensures q.account in db.drafts
    ensures var (next, r) := Handle(db, q, now); var a := q.account;
            && (r == Invalid <==> !AmendmentValid(q))
            && (r.AmendmentSaved? <==> AmendmentValid(q) && db.drafts[a].revision == q.revision)
            && (r == Invalid || r.AmendmentSaved? || r == Conflict) && (!r.AmendmentSaved? ==> next == db)
            && (r.AmendmentSaved? ==>
                && next == db.(amendments := next.amendments) && next.amendments == db.amendments[k := r.row]
                && Some(r.row.responseText) == CleanText(q.responseText, 2000) && r.row.referenceUrl == ReferenceOf(q)
                && r.row.updatedAt == now
                && r.row == db.amendments[k].(responseText := r.row.responseText, referenceUrl := r.row.referenceUrl,
                                              updatedAt := now))
  {
    OpenAmendmentAt(db, q.account, k);
    assert AccountOk(db, q.account);
    hide CleanText, EventsAt, Log, Replay;
    OpenAmendmentIndex(db, q.account, k);
  }

  lemma OpenAmendmentIndex(db: Db, a: Guid, k: nat)
    requires UniqueRows(db) && k < |db.amendments| && db.amendments[k].application == a && db.amendments[k].status.OPEN?
    ensures Find(db.amendments, OpenAmendmentOf(a)) == Some(k)
  {
    var found := Find(db.amendments, OpenAmendmentOf(a));
    assert OpenAmendmentOf(a)(db.amendments[k]);
    assert found.Some? && OpenAmendmentOf(a)(db.amendments[found.value]);
  }

  /** Sending an open amendment back: it is closed, and the application is under review again
      with an empty review and one revision more. */
  lemma ResubmitStored(db: Db, q: Request, now: Instant)
    requires Inv(db) && q.Resubmit?
    ensures var (next, r) := Handle(db, q, now); var a := q.account;
            var open := exists k :: 0 <= k < |db.amendments| && db.amendments[k].id == q.amendmentId
                          && db.amendments[k].application == a && db.amendments[k].status.OPEN?;
            && (r == Invalid <==> !Revision(q.revision))
            && (r == NotFound <==> Revision(q.revision) && a !in db.drafts)
            && (r.Saved? <==> Revision(q.revision) && a in db.drafts && db.drafts[a].revision == q.revision && open)
            && (r == Invalid || r == NotFound || r.Saved? || r == Conflict) && (!r.Saved? ==> next == db)
    ensures var (next, r) := Handle(db, q, now); var a := q.account;
            r.Saved? ==>
              && OtherDrafts(db, next, a) && next.reviews == db.reviews && next.activations == db.activations
              && next.suspensions == db.suspensions && next.sellers == db.sellers
              && (var x, y := db.drafts[a], next.drafts[a];
                  && y.revision == x.revision + 1 && r == Saved(y.revision) && y.updatedAt == now
                  && y.review == Review(Some(UNDER_REVIEW), None, None, None)
                  && y.status == x.status && y.applicant == x.applicant && y.submission == x.submission
                  && y.activation == x.activation)
              && exists k :: 0 <= k < |db.amendments| && db.amendments[k].id == q.amendmentId
                   && next.amendments == db.amendments[k := db.amendments[k].(
                        status := RESUBMITTED, resubmittedAt := Some(now), updatedAt := now)]
  {
    hide EventsAt, Log, Replay, First;
    var found := Find(db.amendments, AmendmentIdIs(q.amendmentId));
    forall k | 0 <= k < |db.amendments| && db.amendments[k].id == q.amendmentId ensures found == Some(k) {
      assert found.Some? && db.amendments[found.value].id == q.amendmentId;
    }
    if found.Some? && OpenAmendmentOf(q.account)(db.amendments[found.value]) {
      OpenAmendmentAt(db, q.account, found.value);
      assert AccountOk(db, q.account);
    }
    hide Inv;
  }

  // Access.

  predicate WasActivatedBy(db: Db, a: Guid) {
    exists i :: 0 <= i < |db.activations| && db.activations[i].application == a
  }

  predicate IsSuspended(db: Db, a: Guid) {
    exists i :: 0 <= i < |db.suspensions| && db.suspensions[i].application == a && db.suspensions[i].restoredAt.None?
  }

  /** The answer of activate, suspend and restore, against the tables it was computed from. */
  predicate TellsAccess(db: Db, a: Guid, r: Response) {
    && r.Access? && a in db.drafts
    && r.view.revision == db.drafts[a].revision && r.view.review == db.drafts[a].review
    && (r.view.sellerActivated <==> WasActivatedBy(db, a))
    && (r.view.sellerSuspended <==> IsSuspended(db, a))
    && (r.view.sellerRoleGranted <==> a in db.sellers)
  }

  lemma AccessTold(db: Db, a: Guid)
    requires Inv(db) && a in db.drafts
    ensures TellsAccess(db, a, AccessResponse(db, a))
  {
    hide EventsAt, Log, Replay;
    assert AccountOk(db, a);
    var activation, suspension := Find(db.activations, ActivationOf(a)), Find(db.suspensions, OpenSuspensionOf(a));
    assert HasActivation(db, a) == WasActivatedBy(db, a) by {
      if activation.Some? { assert ActivationOf(a)(db.activations[activation.value]); }
    }
    assert Suspended(db, a) == IsSuspended(db, a) by {
      if suspension.Some? { assert OpenSuspensionOf(a)(db.suspensions[suspension.value]); }
    }
    hide First, HasActivation, WasActivatedBy, IsSuspended, Inv;
  }

  /** In every run, whoever activates, suspends or restores is told exactly what the tables
      hold afterwards: the revision and review of the row, whether an activation row exists,
      whether a suspension is open, and whether the account has the role. */
  lemma AccessAnswersAreTrue(run: Schedule, q: Request, now: Instant)
    requires q.Activate? || q.Suspend? || q.Restore?
    ensures var (next, r) := Handle(Run(EMPTY_DB, run), q, now);
            r.Access? ==> TellsAccess(next, q.account, r)
  {
    var db := Run(EMPTY_DB, run);
    EveryRunKeeps(run);
    HandleKeeps(db, q, now);
    AnsweredFromTables(db, q, now);
    hide Run, Handle, Inv, TellsAccess, AccessResponse;
    var (next, r) := Handle(db, q, now);
    if r.Access? { AccessTold(next, q.account); }
  }

  lemma AnsweredFromTables(db: Db, q: Request, now: Instant)
    requires q.Activate? || q.Suspend? || q.Restore?
    ensures var (next, r) := Handle(db, q, now);
            r.Access? ==> q.account in next.drafts && r == AccessResponse(next, q.account)
  {
    hide CleanText, First, HasActivation;
  }

  /** The row went on by one revision and nothing else of it changed. */
  predicate Bumped(x: Draft, y: Draft, now: Instant) {
    && y.revision == x.revision + 1 && y.updatedAt == now && y.status == x.status && y.applicant == x.applicant
    && y.submission == x.submission && y.review == x.review
  }

  predicate Activable(db: Db, a: Guid, revision: int) {
    && a in db.drafts && db.drafts[a].status == SUBMITTED && db.drafts[a].review.status == Some(APPROVED)
    && db.drafts[a].revision == revision
  }

  predicate ActivationKeyUsed(db: Db, key: Guid) {
    exists i :: 0 <= i < |db.activations| && db.activations[i].key == key
  }

  /** A first activation: only of an approved application that was never activated; the
      activation, its audit row and the role come together. */
  lemma ActivationStored(db: Db, q: Request, now: Instant)
    requires Inv(db) && q.Activate? && !ActivationKeyUsed(db, q.key)
    ensures var (next, r) := Handle(db, q, now); var a := q.account;
            var valid := Revision(q.revision) && q.key != EMPTY_GUID;
            && (r == Invalid <==> !valid)
            && (r == NotFound <==> valid && a !in db.drafts)
            && (r.Access? <==> valid && Activable(db, a, q.revision) && !WasActivatedBy(db, a))
            && (r == Invalid || r == NotFound || r.Access? || r == Conflict) && (!r.Access? ==> next == db)
    ensures var (next, r) := Handle(db, q, now); var a := q.account;
            r.Access? ==>
              && OtherDrafts(db, next, a) && next.reviews == db.reviews && next.amendments == db.amendments
              && next.suspensions == db.suspensions
              && Bumped(db.drafts[a], next.drafts[a], now)
              && next.drafts[a].activation == Activation(Some(now), Some(q.admin))
              && next.activations == db.activations + [ActivationRow(a, q.admin, q.key, q.revision, now)]
              && next.sellers == db.sellers + {a}
  {
    hide EventsAt, Log, Replay;
    assert AccountOk(db, q.account);
    ActivationLookup(db, q);
    hide Inv, AccessResponse, First, HasActivation, WasActivatedBy, ActivationKeyUsed;
    if q.account in db.drafts { AccessHasRow(Handle(db, q, now).0, q.account); }
  }

  lemma ActivationLookup(db: Db, q: Request)
    requires q.Activate?
    ensures Find(db.activations, ActivationKeyIs(q.key)).Some? <==> ActivationKeyUsed(db, q.key)
    ensures HasActivation(db, q.account) <==> WasActivatedBy(db, q.account)
  {
    var key, row := Find(db.activations, ActivationKeyIs(q.key)), Find(db.activations, ActivationOf(q.account));
    if key.Some? { assert db.activations[key.value].key == q.key; }
    if row.Some? { assert db.activations[row.value].application == q.account; }
  }

  predicate SuspensionKeyUsed(db: Db, key: Guid) {
    exists i :: 0 <= i < |db.suspensions| && db.suspensions[i].key == key
  }

  lemma SuspensionLookup(db: Db, q: Request)
    requires q.Suspend? || q.Restore?
    ensures Find(db.suspensions, SuspensionKeyIs(q.key)).Some? <==> SuspensionKeyUsed(db, q.key)
    ensures Find(db.suspensions, RestoreKeyIs(q.key)).Some? <==> RestoreKeyUsed(db, q.key)
    ensures Suspended(db, q.account) <==> IsSuspended(db, q.account)
  {
    var key, restore := Find(db.suspensions, SuspensionKeyIs(q.key)), Find(db.suspensions, RestoreKeyIs(q.key));
    var open := Find(db.suspensions, OpenSuspensionOf(q.account));
    if key.Some? { assert db.suspensions[key.value].key == q.key; }
    if restore.Some? { assert db.suspensions[restore.value].restoreKey == Some(q.key); }
    if open.Some? { assert OpenSuspensionOf(q.account)(db.suspensions[open.value]); }
  }

  /** A new suspension: only of an activated account that is not suspended; it takes the role. */
  lemma SuspensionStored(db: Db, q: Request, now: Instant)
    requires Inv(db) && q.Suspend? && !SuspensionKeyUsed(db, q.key)
    ensures var (next, r) := Handle(db, q, now); var a := q.account;
            var valid := Revision(q.revision) && q.key != EMPTY_GUID && CleanText(q.reason, 500).Some?;
            && (r == Invalid <==> !valid)
            && (r == NotFound <==> valid && a !in db.drafts)
            && (r.Access? <==> valid && a in db.drafts && db.drafts[a].activation.activatedAt.Some?
                               && db.drafts[a].revision == q.revision && !IsSuspended(db, a))
            && (r == Invalid || r == NotFound || r.Access? || r == Conflict) && (!r.Access? ==> next == db)
    ensures var (next, r) := Handle(db, q, now); var a := q.account;
            r.Access? ==>
              && OtherDrafts(db, next, a) && next.reviews == db.reviews && next.amendments == db.amendments
              && next.activations == db.activations
              && Bumped(db.drafts[a], next.drafts[a], now) && next.drafts[a].activation == db.drafts[a].activation
              && CleanText(q.reason, 500).Some?
              && next.suspensions == db.suspensions + [SuspensionRow(
                   a, q.admin, q.key, q.revision, CleanText(q.reason, 500).value, now, None, None, None, None)]
              && next.sellers == db.sellers - {a}
  {
    SuspensionLookup(db, q);
    hide Inv, AccessResponse, First, CleanText, IsSuspended, SuspensionKeyUsed, RestoreKeyUsed;
    if q.account in db.drafts { AccessHasRow(Handle(db, q, now).0, q.account); }
  }

  predicate RestoreKeyUsed(db: Db, key: Guid) {
    exists i :: 0 <= i < |db.suspensions| && db.suspensions[i].restoreKey == Some(key)
  }

  lemma SuspendedWasActivated(db: Db, a: Guid)
    requires Inv(db)
    ensures Find(db.suspensions, OpenSuspensionOf(a)).Some? <==> Suspended(db, a)
    ensures a in db.drafts && Suspended(db, a) ==> db.drafts[a].activation.activatedAt.Some?
  {
    hide EventsAt, Log, Replay;
    assert AccountOk(db, a);
  }

  /** Ending a suspension: the open row is closed in place and the role returns. */
  lemma RestoreStored(db: Db, q: Request, now: Instant)
    requires Inv(db) && q.Restore? && !RestoreKeyUsed(db, q.key)
    ensures var (next, r) := Handle(db, q, now); var a := q.account;
            var valid := Revision(q.revision) && q.key != EMPTY_GUID;
            && (r == Invalid <==> !valid)
            && (r == NotFound <==> valid && a !in db.drafts)
            && (r.Access? <==> valid && a in db.drafts && db.drafts[a].revision == q.revision && IsSuspended(db, a))
            && (r == Invalid || r == NotFound || r.Access? || r == Conflict) && (!r.Access? ==> next == db)
    ensures var (next, r) := Handle(db, q, now); var a := q.account;
            r.Access? ==>
              && OtherDrafts(db, next, a) && next.reviews == db.reviews && next.amendments == db.amendments
              && next.activations == db.activations
              && Bumped(db.drafts[a], next.drafts[a], now) && next.drafts[a].activation == db.drafts[a].activation
              && next.sellers == db.sellers + {a}
              && exists i :: 0 <= i < |db.suspensions|
                   && db.suspensions[i].application == a && db.suspensions[i].restoredAt.None?
                   && next.suspensions == db.suspensions[i := db.suspensions[i].(
                        restoredAt := Some(now), restoredBy := Some(q.admin), restoreKey := Some(q.key),
                        restoreExpectedRevision := Some(q.revision))]
  {
    SuspensionLookup(db, q);
    SuspendedWasActivated(db, q.account);
    var open := Find(db.suspensions, OpenSuspensionOf(q.account));
    if open.Some? { assert OpenSuspensionOf(q.account)(db.suspensions[open.value]); }
    hide Inv, AccessResponse, First, IsSuspended, SuspensionKeyUsed, RestoreKeyUsed;
    if q.account in db.drafts { AccessHasRow(Handle(db, q, now).0, q.account); }
  }

  // Who approved an activated application.

  /** The request that left this review row behind. */
  predicate Sent(q: Request, x: ReviewRow) {
    && q.ReviewApplication? && q.account == x.application && q.admin == x.reviewer && q.key == x.key
    && q.revision == x.expectedRevision && q.decision.Some? && Means(q.decision.value, x.decision)
    && x.reason == CleanText(q.reason, 500)
  }

  lemma ReviewRowsGrow(db: Db, q: Request, now: Instant)
    requires Inv(db)
    ensures var next := Handle(db, q, now).0;
            && |db.reviews| <= |next.reviews| <= |db.reviews| + 1 && next.reviews[..|db.reviews|] == db.reviews
            && (|next.reviews| > |db.reviews| ==> Sent(q, next.reviews[|db.reviews|]))
  {
    HandleRowsStay(db, q, now);
    if q.ReviewApplication? && !ReviewKeyUsed(db, q.key) {
      ReviewStored(db, q, now);
      hide Handle, CleanText, Inv;
    } else {
      hide CleanText, TrackingCode, TrackingCodeTaken, First, HasActivation, Inv, AccessResponse;
      if q.ReviewApplication? {
        var i :| 0 <= i < |db.reviews| && db.reviews[i].key == q.key;
        assert ReviewKeyIs(q.key)(db.reviews[i]);
      }
    }
  }

  /** Every review row was left behind by a request of the run with that decision. */
  lemma {:induction false} ReviewRowsWereSent(run: Schedule, i: nat)
    requires i < |Run(EMPTY_DB, run).reviews|
    ensures exists k :: 0 <= k < |run| && Sent(run[k].0, Run(EMPTY_DB, run).reviews[i])
  {
    hide Handle, Inv, Sent;
    if run != [] {
      var last := |run| - 1;
      var before := Run(EMPTY_DB, run[..last]);
      EveryRunKeeps(run[..last]);
      ReviewRowsGrow(before, run[last].0, run[last].1);
      if i < |before.reviews| {
        ReviewRowsWereSent(run[..last], i);
        var k :| 0 <= k < last && Sent(run[..last][k].0, before.reviews[i]);
        assert run[k] == run[..last][k] && Run(EMPTY_DB, run).reviews[i] == before.reviews[i];
      }
    }
  }

  /** An approved row has a review row that says so. */
  predicate Backed(db: Db, a: Guid) {
    a in db.drafts && db.drafts[a].review.status == Some(APPROVED) ==>
      exists i :: 0 <= i < |db.reviews| && db.reviews[i].application == a && db.reviews[i].decision == APPROVED
        && Some(db.reviews[i].reviewer) == db.drafts[a].review.reviewedBy
  }

  /** A registration step never touches a review, and a new registration has none. */
  lemma DraftsUnreviewed(db: Db, q: Request, now: Instant, a: Guid)
    requires Inv(db) && IsDraftRequest(q) && a in Handle(db, q, now).0.drafts
    ensures var next := Handle(db, q, now).0;
            if a in db.drafts then next.drafts[a].review == db.drafts[a].review else next.drafts[a].review == NO_REVIEW
  {
    RevisionRange(db, q.account);
    DraftRequestStep(db, q, now);
    hide Handle, Inv;
  }

  lemma ApprovalsElsewhere(db: Db, q: Request, now: Instant, a: Guid)
    requires Inv(db) && !IsDraftRequest(q) && !q.ReviewApplication? && a in Handle(db, q, now).0.drafts
    ensures var next := Handle(db, q, now).0;
            || next.drafts[a].review.status != Some(APPROVED)
            || (a in db.drafts && next.drafts[a].review == db.drafts[a].review)
  {
    hide CleanText, TrackingCode, TrackingCodeTaken, First, HasActivation, Inv, AccessResponse;
  }

  lemma ApprovalsReviewed(db: Db, q: Request, now: Instant, a: Guid)
    requires Inv(db) && q.ReviewApplication? && a in Handle(db, q, now).0.drafts
    ensures var next := Handle(db, q, now).0;
            || next.drafts[a].review.status != Some(APPROVED)
            || (a in db.drafts && next.drafts[a].review == db.drafts[a].review)
            || (q.ReviewApplication? && q.account == a && !ReviewKeyUsed(db, q.key) && Handle(db, q, now).1.Reviewed?)
  {
    hide CleanText, First, Inv;
  }

  lemma ApprovalsAppear(db: Db, q: Request, now: Instant, a: Guid)
    requires Inv(db) && a in Handle(db, q, now).0.drafts
    ensures var next := Handle(db, q, now).0;
            || next.drafts[a].review.status != Some(APPROVED)
            || (a in db.drafts && next.drafts[a].review == db.drafts[a].review)
            || (q.ReviewApplication? && q.account == a && !ReviewKeyUsed(db, q.key) && Handle(db, q, now).1.Reviewed?)
  {
    if IsDraftRequest(q) {
      DraftsUnreviewed(db, q, now, a);
    } else if q.ReviewApplication? {
      ApprovalsReviewed(db, q, now, a);
    } else {
      ApprovalsElsewhere(db, q, now, a);
    }
    hide Handle, Inv, ReviewKeyUsed;
  }

  lemma BackedStays(db: Db, q: Request, now: Instant, a: Guid)
    requires Inv(db) && Backed(db, a)
    ensures Backed(Handle(db, q, now).0, a)
  {
    var next := Handle(db, q, now).0;
    ReviewRowsGrow(db, q, now);
    if a in next.drafts && next.drafts[a].review.status == Some(APPROVED) {
      ApprovalsAppear(db, q, now, a);
      hide Inv, CleanText;
      if q.ReviewApplication? && q.account == a && !ReviewKeyUsed(db, q.key) && Handle(db, q, now).1.Reviewed? {
        ReviewStored(db, q, now);
        hide Handle;
        assert next.reviews[|db.reviews|].decision == APPROVED;
      } else {
        hide Handle;
        var i :| 0 <= i < |db.reviews| && db.reviews[i].application == a && db.reviews[i].decision == APPROVED
                 && Some(db.reviews[i].reviewer) == db.drafts[a].review.reviewedBy;
        assert next.reviews[i] == db.reviews[i];
      }
    }
  }

  lemma {:induction false} RunBacked(run: Schedule, a: Guid)
    ensures Backed(Run(EMPTY_DB, run), a)
  {
    hide Handle, Inv;
    if run != [] {
      var last := |run| - 1;
      RunBacked(run[..last], a);
      EveryRunKeeps(run[..last]);
      hide Backed;
      BackedStays(Run(EMPTY_DB, run[..last]), run[last].0, run[last].1, a);
    }
  }

  lemma ActivatedIsApproved(db: Db, a: Guid)
    requires Inv(db) && a in db.drafts && db.drafts[a].activation.activatedAt.Some?
    ensures db.drafts[a].review.status == Some(APPROVED)
  {
    hide EventsAt, Log, Replay, First, HasActivation;
    assert AccountOk(db, a);
  }

  /** No application is activated unless an administrator sent an approval of it: the run has
      that request, and the row names that administrator as its reviewer. */
  lemma ActivationWasApproved(run: Schedule, a: Guid)
    requires a in Run(EMPTY_DB, run).drafts && Run(EMPTY_DB, run).drafts[a].activation.activatedAt.Some?
    ensures exists k :: 0 <= k < |run| && run[k].0.ReviewApplication? && run[k].0.account == a
              && run[k].0.decision == Some(DecideApproved)
              && Run(EMPTY_DB, run).drafts[a].review.reviewedBy == Some(run[k].0.admin)
  {
    hide Run, Handle, CleanText;
    var db := Run(EMPTY_DB, run);
    EveryRunKeeps(run);
    ActivatedIsApproved(db, a);
    RunBacked(run, a);
    hide Inv;
    var i :| 0 <= i < |db.reviews| && db.reviews[i].application == a && db.reviews[i].decision == APPROVED
             && Some(db.reviews[i].reviewer) == db.drafts[a].review.reviewedBy;
    ReviewRowsWereSent(run, i);
    var k :| 0 <= k < |run| && Sent(run[k].0, db.reviews[i]);
  }
}
