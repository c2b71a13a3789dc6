/**
 The audit trail of one application. Every transition after the draft stage
 consumes the revision it was based on and leaves that revision behind in a row.
 `Log` reads those rows back in revision order; `Replay` runs them through the
 lifecycle from the beginning.
 */
module SellerAudit {
  import opened Wrappers
  import opened Utf16
  import opened SellerRows

  datatype Event =
    | WasSubmitted(at: Instant)
    | WasReviewed(status: ReviewStatus, reason: Option<Text>, actor: Guid, at: Instant)
    | WasResubmitted(at: Instant)
    | WasActivated(actor: Guid, at: Instant)
    | WasSuspended(actor: Guid, suspensionReason: Text, at: Instant)
    | WasRestored(actor: Guid, at: Instant)

  // The event a row contributes to account `a` at revision `r`, if any.
  function ReviewEvent(a: Guid, r: int): ReviewRow -> seq<Event> {
    (x: ReviewRow) =>
      if x.application == a && x.expectedRevision == r
      then [WasReviewed(x.decision, x.reason, x.reviewer, x.createdAt)] else []
  }

  function ResubmitEvent(a: Guid, r: int): AmendmentRow -> seq<Event> {
    (x: AmendmentRow) =>
      if x.application == a && x.baseRevision == r && x.status.RESUBMITTED? && x.resubmittedAt.Some?
      then [WasResubmitted(x.resubmittedAt.value)] else []
  }

  function ActivateEvent(a: Guid, r: int): ActivationRow -> seq<Event> {
    (x: ActivationRow) =>
      if x.application == a && x.expectedRevision == r then [WasActivated(x.activatedBy, x.createdAt)] else []
  }

  function SuspendEvent(a: Guid, r: int): SuspensionRow -> seq<Event> {
    (x: SuspensionRow) =>
      if x.application == a && x.expectedRevision == r
      then [WasSuspended(x.suspendedBy, x.reason, x.createdAt)] else []
  }

  function RestoreEvent(a: Guid, r: int): SuspensionRow -> seq<Event> {
    (x: SuspensionRow) =>
      if x.application == a && x.restoreExpectedRevision == Some(r) && x.restoredBy.Some? && x.restoredAt.Some?
      then [WasRestored(x.restoredBy.value, x.restoredAt.value)] else []
  }

  function SubmitEvent(db: Db, a: Guid, r: int): seq<Event> {
    if a in db.drafts && db.drafts[a].submission.expectedRevision == Some(r)
       && db.drafts[a].submission.submittedAt.Some?
    then [WasSubmitted(db.drafts[a].submission.submittedAt.value)] else []
  }

  function Flat<Row>(rows: seq<Row>, f: Row -> seq<Event>): seq<Event> {
    if rows == [] then [] else Flat(rows[..|rows| - 1], f) + f(rows[|rows| - 1])
  }

  lemma FlatAppend<Row>(rows: seq<Row>, x: Row, f: Row -> seq<Event>)
    ensures Flat(rows + [x], f) == Flat(rows, f) + f(x)
  {
    assert (rows + [x])[..|rows|] == rows;
  }

  lemma {:induction false} FlatUpdate<Row>(rows: seq<Row>, k: nat, y: Row, f: Row -> seq<Event>)
    requires k < |rows|
    ensures f(y) == f(rows[k]) ==> Flat(rows[k := y], f) == Flat(rows, f)
    ensures Flat(rows, f) == [] ==> Flat(rows[k := y], f) == f(y)
  {
    var last := |rows| - 1;
    var changed := rows[k := y];
    if k < last {
      FlatUpdate(rows[..last], k, y, f);
      assert changed[..last] == rows[..last][k := y];
    } else {
      assert changed[..last] == rows[..last];
    }
  }

  /** Everything that consumed revision `r` of account `a`, over all five tables. */
  function EventsAt(db: Db, a: Guid, r: int): seq<Event> {
    SubmitEvent(db, a, r) + Flat(db.reviews, ReviewEvent(a, r)) + Flat(db.amendments, ResubmitEvent(a, r))
    + Flat(db.activations, ActivateEvent(a, r)) + Flat(db.suspensions, SuspendEvent(a, r))
    + Flat(db.suspensions, RestoreEvent(a, r))
  }

  function Log(db: Db, a: Guid, low: int, high: int): seq<Event>
    decreases high - low
  {
    if high <= low then [] else Log(db, a, low, high - 1) + EventsAt(db, a, high - 1)
  }

  lemma {:induction false} LogFrame(db: Db, next: Db, a: Guid, low: int, high: int)
    requires forall r :: low <= r < high ==> EventsAt(next, a, r) == EventsAt(db, a, r)
    ensures Log(next, a, low, high) == Log(db, a, low, high)
    decreases high - low
  {
    if low < high { LogFrame(db, next, a, low, high - 1); }
  }

  /** When every revision was consumed once, the log has their events one after the other. */
  lemma {:induction false} LogAt(db: Db, a: Guid, low: int, high: int)
    requires low <= high && forall r :: low <= r < high ==> |EventsAt(db, a, r)| == 1
    ensures |Log(db, a, low, high)| == high - low
    ensures forall r :: low <= r < high ==> Log(db, a, low, high)[r - low] == EventsAt(db, a, r)[0]
    decreases high - low
  {
    hide EventsAt;
    if low < high { LogAt(db, a, low, high - 1); }
  }

  /** The columns of the row that the audit trail determines. */
  datatype Lifecycle = Lifecycle(
    review: Review, activation: Activation, suspendedFor: Option<Text>, updatedAt: Instant)
  datatype Audit = Unsubmitted | Live(now: Lifecycle) | Broken

  const AWAITING := Review(Some(UNDER_REVIEW), None, None, None)

  /** The lifecycle as a state machine over events; an event out of turn breaks it. */
  function Apply(s: Audit, e: Event): Audit {
    match (s, e)
    case (Unsubmitted, WasSubmitted(at)) => Live(Lifecycle(AWAITING, NO_ACTIVATION, None, at))
    case (Live(c), WasReviewed(status, reason, actor, at)) =>
      if c.review.status == Some(UNDER_REVIEW) && !status.UNDER_REVIEW?
      then Live(c.(review := Review(Some(status), reason, Some(actor), Some(at)), updatedAt := at)) else Broken
    case (Live(c), WasResubmitted(at)) =>
      if c.review.status == Some(NEEDS_INFORMATION) then Live(c.(review := AWAITING, updatedAt := at)) else Broken
    case (Live(c), WasActivated(actor, at)) =>
      if c.review.status == Some(APPROVED) && c.activation == NO_ACTIVATION
      then Live(c.(activation := Activation(Some(at), Some(actor)), updatedAt := at)) else Broken
    case (Live(c), WasSuspended(actor, reason, at)) =>
      if c.activation.activatedAt.Some? && c.suspendedFor.None?
      then Live(c.(suspendedFor := Some(reason), updatedAt := at)) else Broken
    case (Live(c), WasRestored(actor, at)) =>
      if c.suspendedFor.Some? then Live(c.(suspendedFor := None, updatedAt := at)) else Broken
    case _ => Broken
  }

  function Replay(log: seq<Event>): Audit {
    if log == [] then Unsubmitted else Apply(Replay(log[..|log| - 1]), log[|log| - 1])
  }

  lemma ReplayAppend(log: seq<Event>, e: Event)
    ensures Replay(log + [e]) == Apply(Replay(log), e)
  {
    assert (log + [e])[..|log|] == log;
  }

  // What a log that replays without breaking looks like.

  /** The only event that may stand directly before `e`. */
  predicate Follows(prior: Event, e: Event) {
    match e
    case WasSubmitted(_) => false
    case WasReviewed(_, _, _, _) => prior.WasSubmitted? || prior.WasResubmitted?
    case WasResubmitted(_) => prior.WasReviewed? && prior.status.NEEDS_INFORMATION?
    case WasActivated(_, _) => prior.WasReviewed? && prior.status.APPROVED?
    case WasSuspended(_, _, _) => prior.WasActivated? || prior.WasRestored?
    case WasRestored(_, _) => prior.WasSuspended?
  }

  /** The replayed state is known from the last event alone. */
  predicate EndsWith(c: Lifecycle, e: Event) {
    && (e.WasSubmitted? || e.WasResubmitted? ==> c.review == AWAITING && c.activation == NO_ACTIVATION)
    && (e.WasReviewed? ==> c.review.status == Some(e.status) && !e.status.UNDER_REVIEW? && c.activation == NO_ACTIVATION)
    && (e.WasActivated? || e.WasSuspended? || e.WasRestored? ==>
        c.review.status == Some(APPROVED) && c.activation.activatedAt.Some?)
    && (c.suspendedFor.Some? <==> e.WasSuspended?)
  }

  lemma {:induction false} ReplayPrefix(log: seq<Event>, n: nat)
    requires n <= |log| && Replay(log).Live?
    ensures n > 0 ==> Replay(log[..n]).Live?
  {
    if n < |log| {
      assert Replay(log[..|log| - 1]).Live? || |log| == 1;
      if |log| > 1 {
        ReplayPrefix(log[..|log| - 1], n);
        assert log[..|log| - 1][..n] == log[..n];
      }
    } else {
      assert log[..n] == log;
    }
  }

  lemma {:induction false} ReplayEndsWithLast(log: seq<Event>)
    requires Replay(log).Live?
    ensures log != [] && EndsWith(Replay(log).now, log[|log| - 1])
    ensures |log| == 1 ==> log[0].WasSubmitted?
    ensures |log| > 1 ==> Follows(log[|log| - 2], log[|log| - 1])
  {
    if |log| > 1 { ReplayEndsWithLast(log[..|log| - 1]); }
  }

  /** The grammar of audit trails: a submission first, and then every event directly
      after the one that enables it. In particular reviews and resubmissions alternate. */
  lemma LogGrammar(log: seq<Event>)
    requires Replay(log).Live?
    ensures log != [] && log[0].WasSubmitted?
    ensures forall i :: 0 < i < |log| ==> Follows(log[i - 1], log[i])
  {
    ReplayEndsWithLast(log);
    ReplayPrefix(log, 1);
    ReplayEndsWithLast(log[..1]);
    forall i | 0 < i < |log| ensures Follows(log[i - 1], log[i]) {
      ReplayPrefix(log, i + 1);
      ReplayEndsWithLast(log[..i + 1]);
    }
  }

  /** Every review that is followed by anything but an activation asked for information,
      so of two reviews the earlier one did, and a resubmission separates them. */
  lemma ReviewsAlternate(log: seq<Event>, i: nat, j: nat)
    requires Replay(log).Live? && i < j < |log| && log[i].WasReviewed? && log[j].WasReviewed?
    ensures log[i].status.NEEDS_INFORMATION?
    ensures i + 1 < j && log[i + 1].WasResubmitted?
  {
    LogGrammar(log);
    assert Follows(log[i], log[i + 1]);
    if !log[i + 1].WasResubmitted? {
      assert log[i + 1].WasActivated?;
      AccessOnwards(log, i + 1, j);
    }
  }

  predicate AboutAccess(e: Event) {
    e.WasActivated? || e.WasSuspended? || e.WasRestored?
  }

  /** After activation only suspensions and restores follow. */
  lemma {:induction false} AccessOnwards(log: seq<Event>, i: nat, j: nat)
    requires Replay(log).Live? && i < j < |log| && AboutAccess(log[i])
    ensures log[j].WasSuspended? || log[j].WasRestored?
    decreases j
  {
    LogGrammar(log);
    assert Follows(log[j - 1], log[j]);
    if i < j - 1 { AccessOnwards(log, i, j - 1); }
  }

  /** Suspension intervals are disjoint: a restore closes each one before the next opens. */
  lemma SuspensionsDisjoint(log: seq<Event>, i: nat, j: nat)
    requires Replay(log).Live? && i < j < |log| && log[i].WasSuspended? && log[j].WasSuspended?
    ensures i + 1 < j && log[i + 1].WasRestored?
  {
    LogGrammar(log);
    AccessOnwards(log, i, i + 1);
    assert Follows(log[i], log[i + 1]);
  }

  /** An application is activated at most once. */
  lemma ActivatedOnce(log: seq<Event>, i: nat, j: nat)
    requires Replay(log).Live? && i < |log| && j < |log| && log[i].WasActivated? && log[j].WasActivated?
    ensures i == j
  {
    if i < j { AccessOnwards(log, i, j); }
    if j < i { AccessOnwards(log, j, i); }
  }
}
