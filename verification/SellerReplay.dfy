/** Retried requests, final decisions, and revisions as names of row contents. */
module SellerReplay {
  import opened Wrappers
  import opened Utf16
  import opened SellerRows
  import opened SellerHandlers
  import opened SellerAudit
  import opened SellerInvariants
  import opened SellerTheorems

  // What no request undoes.

  predicate Decided(row: Draft) {
    row.review.status == Some(APPROVED) || row.review.status == Some(REJECTED)
  }

  /** How one row may differ after a request. The revision names the contents: it never
      goes back, and while it stays the same so does the whole row. */
  predicate RowStep(before: Draft, after: Draft) {
    && before.revision <= after.revision
    && (before.revision == after.revision ==> before == after)
    && (before.status.SUBMITTED? ==>
        && after.status.SUBMITTED? && after.applicant == before.applicant && after.submission == before.submission
        && (Decided(before) ==> after.review == before.review)
        && (before.activation != NO_ACTIVATION ==> after.activation == before.activation))
  }

  predicate RowsStep(db: Db, next: Db) {
    forall a :: a in db.drafts ==> a in next.drafts && RowStep(db.drafts[a], next.drafts[a])
  }

  lemma DraftRequestRows(db: Db, q: Request, now: Instant)
    requires Inv(db) && IsDraftRequest(q)
    ensures RowsStep(db, Handle(db, q, now).0)
  {
    RevisionRange(db, q.account);
    DraftRequestStep(db, q, now);
  }

  lemma HandleRows(db: Db, q: Request, now: Instant)
    requires Inv(db)
    ensures RowsStep(db, Handle(db, q, now).0)
  {
    hide Inv, First, CleanText, TrackingCode, HasActivation, TrackingCodeTaken;
    if IsDraftRequest(q) {
      DraftRequestRows(db, q, now);
    } else {
      RevisionRange(db, q.account);
    }
  }

  lemma {:induction false} RunRows(db: Db, run: Schedule)
    requires Inv(db)
    ensures RowsStep(db, Run(db, run))
  {
    if run != [] {
      var last := |run| - 1;
      RunRows(db, run[..last]);
      RunKeeps(db, run[..last]);
      HandleRows(Run(db, run[..last]), run[last].0, run[last].1);
      hide Inv, Handle;
    }
  }

  lemma {:induction false} RunSplit(db: Db, first: Schedule, second: Schedule)
    ensures Run(db, first + second) == Run(Run(db, first), second)
  {
    hide Handle;
    if second == [] {
      assert first + second == first;
    } else {
      var last := |second| - 1;
      RunSplit(db, first, second[..last]);
      assert (first + second)[..|first + second| - 1] == first + second[..last];
    }
  }

  /** No lost update, over any number of clients: a guarded write at the revision a client
      read overwrites exactly the row that client read. */
  lemma SameRevisionSameRow(first: Schedule, second: Schedule, a: Guid)
    requires a in Run(EMPTY_DB, first).drafts
    ensures a in Run(EMPTY_DB, first + second).drafts
    ensures Run(EMPTY_DB, first).drafts[a].revision <= Run(EMPTY_DB, first + second).drafts[a].revision
    ensures Run(EMPTY_DB, first).drafts[a].revision == Run(EMPTY_DB, first + second).drafts[a].revision ==>
              Run(EMPTY_DB, first).drafts[a] == Run(EMPTY_DB, first + second).drafts[a]
  {
    hide Inv, Run;
    EveryRunKeeps(first);
    RunRows(Run(EMPTY_DB, first), second);
    RunSplit(EMPTY_DB, first, second);
  }

  /** Submission is final: the applicant's data, the submission key and the tracking code
      never change again, and neither does an approval, a rejection or an activation. */
  lemma SubmissionIsFinal(first: Schedule, second: Schedule, a: Guid)
    requires a in Run(EMPTY_DB, first).drafts && Run(EMPTY_DB, first).drafts[a].status.SUBMITTED?
    ensures a in Run(EMPTY_DB, first + second).drafts
    ensures var before, after := Run(EMPTY_DB, first).drafts[a], Run(EMPTY_DB, first + second).drafts[a];
            && after.status.SUBMITTED? && after.applicant == before.applicant && after.submission == before.submission
            && (Decided(before) ==> after.review == before.review)
            && (before.activation != NO_ACTIVATION ==> after.activation == before.activation)
  {
    hide Inv, Run;
    EveryRunKeeps(first);
    RunRows(Run(EMPTY_DB, first), second);
    RunSplit(EMPTY_DB, first, second);
  }

  // Idempotency keys.

  /** The five requests that carry an idempotency key. */
  predicate Keyed(q: Request) {
    q.Submit? || q.ReviewApplication? || q.Activate? || q.Suspend? || q.Restore?
  }

  predicate ReviewMatches(x: ReviewRow, q: Request)
    requires q.ReviewApplication?
  {
    && x.application == q.account && x.reviewer == q.admin && x.expectedRevision == q.revision
    && q.decision.Some? && x.decision == StatusOf(q.decision.value) && x.reason == CleanText(q.reason, 500)
  }

  predicate SuspensionMatches(x: SuspensionRow, q: Request)
    requires q.Suspend?
  {
    && x.application == q.account && x.suspendedBy == q.admin && x.expectedRevision == q.revision
    && Some(x.reason) == CleanText(q.reason, 500)
  }

  predicate RestoreMatches(x: SuspensionRow, q: Request)
    requires q.Restore?
  {
    x.application == q.account && x.restoredBy == Some(q.admin) && x.restoreExpectedRevision == Some(q.revision)
  }

  predicate ActivationMatches(x: ActivationRow, q: Request)
    requires q.Activate?
  {
    x.application == q.account && x.activatedBy == q.admin && x.expectedRevision == q.revision
  }

  /** Passed the checks that come before the key is looked up. */
  predicate WellFormed(q: Request)
    requires Keyed(q)
  {
    && !BadRevision(q.revision) && q.key != EMPTY_GUID
    && match q
       case Submit(_, _, confirmed, _, _) => confirmed
       case ReviewApplication(_, _, _, decision, reason, _) =>
         && decision.Some? && (decision.value.DecideApproved? || CleanText(reason, 500).Some?)
         && !Refused(reason, CleanText(reason, 500))
       case Suspend(_, _, _, reason, _) => CleanText(reason, 500).Some?
       case _ => true
  }

  /** The key was committed by a request with this very payload. */
  ghost predicate Committed(db: Db, q: Request)
    requires Keyed(q)
  {
    && WellFormed(q) && q.account in db.drafts
    && match q
       case Submit(a, revision, _, key, _) =>
         && db.drafts[a].status.SUBMITTED? && db.drafts[a].submission.key == Some(key)
         && db.drafts[a].submission.expectedRevision == Some(revision)
       case ReviewApplication(_, _, _, _, _, key) =>
         exists i :: 0 <= i < |db.reviews| && db.reviews[i].key == key && ReviewMatches(db.reviews[i], q)
       case Activate(_, _, _, key) =>
         exists i :: 0 <= i < |db.activations| && db.activations[i].key == key && ActivationMatches(db.activations[i], q)
       case Suspend(_, _, _, _, key) =>
         exists i :: 0 <= i < |db.suspensions| && db.suspensions[i].key == key && SuspensionMatches(db.suspensions[i], q)
       case Restore(_, _, _, key) =>
         exists i :: 0 <= i < |db.suspensions| && db.suspensions[i].restoreKey == Some(key) && RestoreMatches(db.suspensions[i], q)
  }

  /** The key was committed, whatever the payload was. */
  ghost predicate KeyTaken(db: Db, q: Request)
    requires Keyed(q) && !q.Submit?
  {
    match q
    case ReviewApplication(_, _, _, _, _, key) => exists i :: 0 <= i < |db.reviews| && db.reviews[i].key == key
    case Activate(_, _, _, key) => exists i :: 0 <= i < |db.activations| && db.activations[i].key == key
    case Suspend(_, _, _, _, key) => exists i :: 0 <= i < |db.suspensions| && db.suspensions[i].key == key
    case Restore(_, _, _, key) => exists i :: 0 <= i < |db.suspensions| && db.suspensions[i].restoreKey == Some(key)
  }

  predicate Accepted(r: Response) {
    r.SubmittedAs? || r.Reviewed? || r.Access?
  }

  lemma ReviewKeyAt(db: Db, i: nat)
    requires UniqueRows(db) && i < |db.reviews|
    ensures Find(db.reviews, ReviewKeyIs(db.reviews[i].key)) == Some(i)
  {
    var found := Find(db.reviews, ReviewKeyIs(db.reviews[i].key));
    assert found.Some?;
  }

  lemma ActivationKeyAt(db: Db, i: nat)
    requires UniqueRows(db) && i < |db.activations|
    ensures Find(db.activations, ActivationKeyIs(db.activations[i].key)) == Some(i)
  {
    var found := Find(db.activations, ActivationKeyIs(db.activations[i].key));
    assert found.Some?;
  }

  lemma SuspensionKeyAt(db: Db, i: nat)
    requires UniqueRows(db) && i < |db.suspensions|
    ensures Find(db.suspensions, SuspensionKeyIs(db.suspensions[i].key)) == Some(i)
  {
    var found := Find(db.suspensions, SuspensionKeyIs(db.suspensions[i].key));
    assert found.Some?;
  }

  lemma RestoreKeyAt(db: Db, i: nat)
    requires UniqueRows(db) && i < |db.suspensions| && db.suspensions[i].restoreKey.Some?
    ensures Find(db.suspensions, RestoreKeyIs(db.suspensions[i].restoreKey.value)) == Some(i)
  {
    var found := Find(db.suspensions, RestoreKeyIs(db.suspensions[i].restoreKey.value));
    assert found.Some?;
  }

  lemma SubmittedRow(db: Db, a: Guid)
    requires Inv(db) && a in db.drafts && db.drafts[a].status.SUBMITTED?
    ensures SubmissionRecorded(db.drafts[a])
  {
    assert AccountOk(db, a);
  }

  lemma {:induction false} FlatHas<Row>(rows: seq<Row>, f: Row -> seq<Event>, i: nat)
    requires i < |rows| && f(rows[i]) != []
    ensures Flat(rows, f) != []
  {
    if i < |rows| - 1 { FlatHas(rows[..|rows| - 1], f, i); }
  }

  /** Audit rows only ever speak of accounts that have a row of their own. */
  lemma TrailHasRow(db: Db, a: Guid, r: int)
    requires Inv(db) && EventsAt(db, a, r) != []
    ensures a in db.drafts
  {
    hide EventsAt;
    assert AccountOk(db, a);
  }

  lemma KeyHasRow(db: Db, q: Request)
    requires Inv(db) && Keyed(q) && !q.Submit? && KeyTaken(db, q)
    ensures q.ReviewApplication? ==> forall i :: 0 <= i < |db.reviews| ==> db.reviews[i].application in db.drafts
    ensures q.Activate? ==> forall i :: 0 <= i < |db.activations| ==> db.activations[i].application in db.drafts
    ensures q.Suspend? || q.Restore? ==> forall i :: 0 <= i < |db.suspensions| ==> db.suspensions[i].application in db.drafts
  {
    hide AccountOk, UniqueRows;
    forall i | 0 <= i < |db.reviews| ensures db.reviews[i].application in db.drafts {
      var x := db.reviews[i];
      FlatHas(db.reviews, ReviewEvent(x.application, x.expectedRevision), i);
      TrailHasRow(db, x.application, x.expectedRevision);
    }
    forall i | 0 <= i < |db.activations| ensures db.activations[i].application in db.drafts {
      var x := db.activations[i];
      FlatHas(db.activations, ActivateEvent(x.application, x.expectedRevision), i);
      TrailHasRow(db, x.application, x.expectedRevision);
    }
    forall i | 0 <= i < |db.suspensions| ensures db.suspensions[i].application in db.drafts {
      var x := db.suspensions[i];
      FlatHas(db.suspensions, SuspendEvent(x.application, x.expectedRevision), i);
      TrailHasRow(db, x.application, x.expectedRevision);
    }
  }

  lemma RepeatedReview(db: Db, q: Request, now: Instant)
    requires UniqueRows(db) && q.ReviewApplication? && Committed(db, q)
    ensures Handle(db, q, now).0 == db && Accepted(Handle(db, q, now).1)
  {
    hide CleanText;
    var i :| 0 <= i < |db.reviews| && db.reviews[i].key == q.key && ReviewMatches(db.reviews[i], q);
    ReviewKeyAt(db, i);
  }

  lemma RepeatedActivation(db: Db, q: Request, now: Instant)
    requires UniqueRows(db) && q.Activate? && Committed(db, q)
    ensures Handle(db, q, now).0 == db && Accepted(Handle(db, q, now).1)
  {
    hide First;
    var i :| 0 <= i < |db.activations| && db.activations[i].key == q.key && ActivationMatches(db.activations[i], q);
    ActivationKeyAt(db, i);
  }

  lemma RepeatedSuspension(db: Db, q: Request, now: Instant)
    requires UniqueRows(db) && q.Suspend? && Committed(db, q)
    ensures Handle(db, q, now).0 == db && Accepted(Handle(db, q, now).1)
  {
    hide First, CleanText;
    var i :| 0 <= i < |db.suspensions| && db.suspensions[i].key == q.key && SuspensionMatches(db.suspensions[i], q);
    SuspensionKeyAt(db, i);
  }

  lemma RepeatedRestore(db: Db, q: Request, now: Instant)
    requires UniqueRows(db) && q.Restore? && Committed(db, q)
    ensures Handle(db, q, now).0 == db && Accepted(Handle(db, q, now).1)
  {
    hide First;
    var i :| 0 <= i < |db.suspensions| && db.suspensions[i].restoreKey == Some(q.key) && RestoreMatches(db.suspensions[i], q);
    RestoreKeyAt(db, i);
  }

  /** A repeat of a committed request is accepted again and changes nothing. */
  lemma RepeatIsStutter(db: Db, q: Request, now: Instant)
    requires Inv(db) && Keyed(q) && Committed(db, q)
    ensures Handle(db, q, now).0 == db && Accepted(Handle(db, q, now).1)
  {
    hide AccountOk, UniqueRows;
    match q
    case Submit(a, _, _, _, _) => SubmittedRow(db, a);
    case ReviewApplication(_, _, _, _, _, _) => hide Handle, Committed, Accepted; RepeatedReview(db, q, now);
    case Activate(_, _, _, _) => hide Handle, Committed, Accepted; RepeatedActivation(db, q, now);
    case Suspend(_, _, _, _, _) => hide Handle, Committed, Accepted; RepeatedSuspension(db, q, now);
    case Restore(_, _, _, _) => hide Handle, Committed, Accepted; RepeatedRestore(db, q, now);
  }

  lemma ReusedReview(db: Db, q: Request, now: Instant)
    requires Inv(db) && q.ReviewApplication? && KeyTaken(db, q) && !Committed(db, q)
    ensures Handle(db, q, now) == (db, if WellFormed(q) then Conflict else Invalid)
  {
    hide CleanText, First, AccountOk, AccessResponse;
    KeyHasRow(db, q);
    var i :| 0 <= i < |db.reviews| && db.reviews[i].key == q.key;
    ReviewKeyAt(db, i);
  }

  lemma ReusedActivation(db: Db, q: Request, now: Instant)
    requires Inv(db) && q.Activate? && KeyTaken(db, q) && !Committed(db, q)
    ensures Handle(db, q, now) == (db, if WellFormed(q) then Conflict else Invalid)
  {
    hide CleanText, First, AccountOk, AccessResponse;
    KeyHasRow(db, q);
    var i :| 0 <= i < |db.activations| && db.activations[i].key == q.key;
    ActivationKeyAt(db, i);
  }

  lemma ReusedSuspension(db: Db, q: Request, now: Instant)
    requires Inv(db) && q.Suspend? && KeyTaken(db, q) && !Committed(db, q)
    ensures Handle(db, q, now) == (db, if WellFormed(q) then Conflict else Invalid)
  {
    hide CleanText, First, AccountOk, AccessResponse;
    KeyHasRow(db, q);
    var i :| 0 <= i < |db.suspensions| && db.suspensions[i].key == q.key;
    SuspensionKeyAt(db, i);
  }

  lemma ReusedRestore(db: Db, q: Request, now: Instant)
    requires Inv(db) && q.Restore? && KeyTaken(db, q) && !Committed(db, q)
    ensures Handle(db, q, now) == (db, if WellFormed(q) then Conflict else Invalid)
  {
    hide CleanText, First, AccountOk, AccessResponse;
    KeyHasRow(db, q);
    var i :| 0 <= i < |db.suspensions| && db.suspensions[i].restoreKey == Some(q.key);
    RestoreKeyAt(db, i);
  }

  /** A committed key with any other payload is refused and changes nothing. */
  lemma ReuseIsRefused(db: Db, q: Request, now: Instant)
    requires Inv(db) && Keyed(q) && !q.Submit? && KeyTaken(db, q) && !Committed(db, q)
    ensures Handle(db, q, now).0 == db
    ensures Handle(db, q, now).1 == if WellFormed(q) then Conflict else Invalid
  {
    hide Inv, Handle, KeyTaken, Committed, WellFormed;
    if q.ReviewApplication? { ReusedReview(db, q, now); }
    else if q.Activate? { ReusedActivation(db, q, now); }
    else if q.Suspend? { ReusedSuspension(db, q, now); }
    else { ReusedRestore(db, q, now); }
  }

  lemma AccessHasRow(db: Db, a: Guid)
    ensures Accepted(AccessResponse(db, a)) <==> a in db.drafts
  {
  }

  lemma AcceptedReview(db: Db, q: Request, now: Instant)
    requires q.ReviewApplication? && Accepted(Handle(db, q, now).1)
    ensures Committed(Handle(db, q, now).0, q)
  {
    hide CleanText;
    var next := Handle(db, q, now).0;
    var i := Find(db.reviews, ReviewKeyIs(q.key)).GetOr(|db.reviews|);
    assert next.reviews[i].key == q.key && ReviewMatches(next.reviews[i], q);
  }

  lemma AcceptedActivation(db: Db, q: Request, now: Instant)
    requires q.Activate? && Accepted(Handle(db, q, now).1)
    ensures Committed(Handle(db, q, now).0, q)
  {
    var next := Handle(db, q, now).0;
    AccessHasRow(db, q.account);
    hide First, AccessResponse;
    var i := Find(db.activations, ActivationKeyIs(q.key)).GetOr(|db.activations|);
    assert next.activations[i].key == q.key && ActivationMatches(next.activations[i], q);
  }

  lemma AcceptedSuspension(db: Db, q: Request, now: Instant)
    requires q.Suspend? && Accepted(Handle(db, q, now).1)
    ensures Committed(Handle(db, q, now).0, q)
  {
    var next := Handle(db, q, now).0;
    AccessHasRow(db, q.account);
    hide CleanText, First, AccessResponse;
    var i := Find(db.suspensions, SuspensionKeyIs(q.key)).GetOr(|db.suspensions|);
    assert next.suspensions[i].key == q.key && SuspensionMatches(next.suspensions[i], q);
  }

  lemma AcceptedRestore(db: Db, q: Request, now: Instant)
    requires q.Restore? && Accepted(Handle(db, q, now).1)
    ensures Committed(Handle(db, q, now).0, q)
  {
    var next := Handle(db, q, now).0;
    AccessHasRow(db, q.account);
    hide First, AccessResponse;
    var prior := Find(db.suspensions, RestoreKeyIs(q.key));
    var i := if prior.Some? then prior.value else Find(db.suspensions, OpenSuspensionOf(q.account)).value;
    assert next.suspensions[i].restoreKey == Some(q.key) && RestoreMatches(next.suspensions[i], q);
  }

  /** What a request answered with success has committed. */
  lemma AcceptedIsCommitted(db: Db, q: Request, now: Instant)
    requires Keyed(q) && Accepted(Handle(db, q, now).1)
    ensures Committed(Handle(db, q, now).0, q)
  {
    match q
    case Submit(_, _, _, _, _) => hide TrackingCode;
    case ReviewApplication(_, _, _, _, _, _) => hide Handle, Committed; AcceptedReview(db, q, now);
    case Activate(_, _, _, _) => hide Handle, Committed; AcceptedActivation(db, q, now);
    case Suspend(_, _, _, _, _) => hide Handle, Committed; AcceptedSuspension(db, q, now);
    case Restore(_, _, _, _) => hide Handle, Committed; AcceptedRestore(db, q, now);
  }

  /** Rows are only appended to, and an amended row keeps what its keys were committed with. */
  predicate RowsStay(db: Db, next: Db) {
    && db.reviews <= next.reviews && db.activations <= next.activations
    && |db.suspensions| <= |next.suspensions|
    && (forall i :: 0 <= i < |db.suspensions| ==>
          var x, y := db.suspensions[i], next.suspensions[i];
          && x.key == y.key && x.application == y.application && x.suspendedBy == y.suspendedBy
          && x.expectedRevision == y.expectedRevision && x.reason == y.reason
          && (x.restoreKey.Some? ==> x == y))
  }

  lemma HandleRowsStay(db: Db, q: Request, now: Instant)
    requires Inv(db)
    ensures RowsStay(db, Handle(db, q, now).0)
  {
    hide First, CleanText, TrackingCode, AccountOk, AccessResponse, HasActivation, TrackingCodeTaken;
    if IsDraftRequest(q) {
      RevisionRange(db, q.account);
      DraftRequestStep(db, q, now);
      hide Handle;
    }
  }

  lemma CommittedRowStays(db: Db, next: Db, q: Request)
    requires RowsStay(db, next) && RowsStep(db, next) && Keyed(q) && !q.Suspend? && Committed(db, q)
    ensures Committed(next, q)
  {
    hide WellFormed, CleanText;
    match q
    case Submit(_, _, _, _, _) =>
    case ReviewApplication(_, _, _, _, _, key) =>
      var i :| 0 <= i < |db.reviews| && db.reviews[i].key == key && ReviewMatches(db.reviews[i], q);
      assert next.reviews[i] == db.reviews[i];
    case Activate(_, _, _, key) =>
      var i :| 0 <= i < |db.activations| && db.activations[i].key == key && ActivationMatches(db.activations[i], q);
      assert next.activations[i] == db.activations[i];
    case Restore(_, _, _, key) =>
      var i :| 0 <= i < |db.suspensions| && db.suspensions[i].restoreKey == Some(key) && RestoreMatches(db.suspensions[i], q);
      assert next.suspensions[i] == db.suspensions[i];
    case _ =>
  }

  lemma CommittedSuspensionStays(db: Db, next: Db, q: Request)
    requires RowsStay(db, next) && RowsStep(db, next) && q.Suspend? && Committed(db, q)
    ensures Committed(next, q)
  {
    hide WellFormed, CleanText;
    var i :| 0 <= i < |db.suspensions| && db.suspensions[i].key == q.key && SuspensionMatches(db.suspensions[i], q);
    assert next.suspensions[i].key == q.key && SuspensionMatches(next.suspensions[i], q);
  }

  /** A committed key stays committed. */
  lemma CommittedStays(db: Db, p: Request, now: Instant, q: Request)
    requires Inv(db) && Keyed(q) && Committed(db, q)
    ensures Committed(Handle(db, p, now).0, q)
  {
    HandleRowsStay(db, p, now);
    HandleRows(db, p, now);
    hide Handle, Inv, RowsStay, RowsStep, Committed;
    if q.Suspend? { CommittedSuspensionStays(db, Handle(db, p, now).0, q); }
    else { CommittedRowStays(db, Handle(db, p, now).0, q); }
  }

  lemma {:induction false} CommittedStaysOverRun(db: Db, run: Schedule, q: Request)
    requires Inv(db) && Keyed(q) && Committed(db, q)
    ensures Committed(Run(db, run), q)
  {
    if run != [] {
      var last := |run| - 1;
      CommittedStaysOverRun(db, run[..last], q);
      RunKeeps(db, run[..last]);
      CommittedStays(Run(db, run[..last]), run[last].0, run[last].1, q);
      hide Inv, Handle, Committed;
    }
  }

  /** Retries are harmless: once a keyed request was accepted, repeating it at any later
      point of any run is accepted again and changes nothing, then or in the end. */
  lemma RetryIsHarmless(before: Schedule, q: Request, t: Instant, between: Schedule, later: Instant, rest: Schedule)
    requires Keyed(q) && Accepted(Handle(Run(EMPTY_DB, before), q, t).1)
    ensures Accepted(Handle(Run(EMPTY_DB, before + [(q, t)] + between), q, later).1)
    ensures Run(EMPTY_DB, before + [(q, t)] + between + [(q, later)] + rest)
         == Run(EMPTY_DB, before + [(q, t)] + between + rest)
  {
    hide Handle, Inv, Committed, Accepted;
    var start := Run(EMPTY_DB, before);
    EveryRunKeeps(before);
    AcceptedIsCommitted(start, q, t);
    assert (before + [(q, t)])[..|before|] == before;
    var done := Run(EMPTY_DB, before + [(q, t)]);
    EveryRunKeeps(before + [(q, t)]);
    CommittedStaysOverRun(done, between, q);
    var mid := before + [(q, t)] + between;
    RunSplit(EMPTY_DB, before + [(q, t)], between);
    EveryRunKeeps(mid);
    RepeatIsStutter(Run(EMPTY_DB, mid), q, later);
    assert (mid + [(q, later)])[..|mid|] == mid;
    RunSplit(EMPTY_DB, mid + [(q, later)], rest);
    RunSplit(EMPTY_DB, mid, rest);
  }

  /** The run without the requests that repeat an already committed key and payload. */
  ghost function WithoutRepeats(db: Db, run: Schedule): Schedule {
    if run == [] then []
    else
      var last := |run| - 1;
      var kept := WithoutRepeats(db, run[..last]);
      if Keyed(run[last].0) && Committed(Run(db, run[..last]), run[last].0) then kept else kept + [run[last]]
  }

  /** Deleting every such repeat from any run leaves the same final tables. */
  lemma {:induction false} RepeatsAreStutters(run: Schedule)
    ensures Run(EMPTY_DB, WithoutRepeats(EMPTY_DB, run)) == Run(EMPTY_DB, run)
  {
    hide Handle, Committed, Keyed;
    if run != [] {
      var last := |run| - 1;
      var kept := WithoutRepeats(EMPTY_DB, run[..last]);
      RepeatsAreStutters(run[..last]);
      if Keyed(run[last].0) && Committed(Run(EMPTY_DB, run[..last]), run[last].0) {
        EveryRunKeeps(run[..last]);
        RepeatIsStutter(Run(EMPTY_DB, run[..last]), run[last].0, run[last].1);
      } else {
        assert (kept + [run[last]])[..|kept|] == kept;
      }
    }
  }
}
