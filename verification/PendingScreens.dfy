/**
 What a press and an answer do to a screen, told field by field and independently of the
 segments' code: when a command is begun, sent, kept or forgotten, what follows an answer, and
 what the buyer finds in the form afterwards.
 */
module PendingScreens {
  import opened Wrappers
  import opened PendingController

  /** The answer belongs to the screen's latest attempt and the screen is there. */
  predicate Current(c: Controller, epoch: nat) {
    c.active && c.epoch == epoch
  }

  predicate Idle(c: Controller) {
    c.locked == false && c.busy == false && c.intent == None
  }

  /** `d` is `c` with the lock released and, for the current attempt, no longer busy. */
  predicate Released(c: Controller, d: Controller, epoch: nat) {
    d == c.(locked := false, busy := if Current(c, epoch) then false else c.busy)
  }

  predicate HasPicture(d: Draft) {
    d.photo.Some? && d.photo.value.base64.Some?
  }

  // Presses.

  /** A report is begun exactly on an idle incidents screen with its order loaded and a picture
      chosen; it sends that picture and freezes the form. A second press finds a command held. */
  lemma ReportPressed(c: Controller, key: Key, fits: bool)
    ensures CanReport(c, fits) <==> c.scope == Incidents && Idle(c) && c.orderLoaded && fits && HasPicture(c.draft)
    ensures CanReport(c, true) ==>
              var d := BeginReport(c, key);
              && d.intent == Some(Intent(key, Upload(c.draft.photo.value.base64.value))) && d.snapshot == Some(c.draft)
              && d == c.(intent := d.intent, snapshot := d.snapshot)
              && !CanReport(d, fits) && !Editable(d)
  {
  }

  lemma RequestPressed(c: Controller, key: Key, request: nat)
    ensures Editable(c) <==> Idle(c)
    ensures Editable(c) ==>
              var d := BeginRequest(c, key, request);
              d.intent == Some(Intent(key, Plain(request))) && d == c.(intent := d.intent) && !Editable(d)
  {
  }

  /** The form changes only on an idle screen, and an edit of the photo names the file it leaves. */
  lemma FormEdited(c: Controller, claim: Claim, photo: Option<Photo>)
    ensures SetClaim(c, claim) == if Idle(c) then c.(draft := Draft(claim, c.draft.photo)) else c
    ensures SetPhoto(c, photo) == if Idle(c) then c.(draft := Draft(c.draft.claim, photo)) else c
    ensures forall uri :: Dropped(c, photo) == Some(uri) <==>
              && Idle(c) && c.draft.photo.Some? && c.draft.photo.value.uri == uri
              && !(photo.Some? && photo.value.uri == uri)
  {
    assert c.draft == Draft(c.draft.claim, c.draft.photo);
  }

  /** The context stored with a command is the frozen form's, for the screen's order. */
  predicate StoredContext(c: Controller, context: Option<Context>) {
    && (context.Some? <==> c.snapshot.Some? && c.snapshot.value.photo.Some? && c.orderId.Some?)
    && (context.Some? ==>
          && context.value.order == c.orderId.value && context.value.claim == c.snapshot.value.claim
          && context.value.photo == c.snapshot.value.photo.value.uri)
  }

  /** The screen has lost what it needs to go on with an upload. */
  predicate Lost(c: Controller) {
    c.snapshot.None? || c.orderId.None? || !c.orderLoaded
  }

  /** A retry does nothing while locked or, but for the cart, busy, or without a command. An upload
      is restored first if the screen lost its report, and given up if the window has closed.
      Anything else is locked and saved under a new attempt, with its context. */
  lemma RetryPressed(c: Controller, open: bool)
    ensures var s := Retry(c, open);
            var ready := !c.locked && (c.scope == Cart || !c.busy) && c.intent != None;
            var upload := c.intent.Some? && c.intent.value.command.Upload?;
            && (!ready ==> s == Segment(c, None))
            && (ready && upload && Lost(c) ==> s == Segment(c, Some(Restoring)))
            && (ready && upload && !Lost(c) && !open ==> s == Segment(c, Some(Expiring(c.intent.value))))
            && (ready && (!upload || (!Lost(c) && open)) ==>
                  && s.c == c.(locked := true, busy := true, epoch := c.epoch + 1)
                  && s.wait.Some? && s.wait.value.Saving? && s.wait.value.epoch == c.epoch + 1
                  && s.wait.value.intent == c.intent.value && StoredContext(c, s.wait.value.context))
  {
  }

  /** A new screen is idle and holds nothing; its form is one damaged piece of no item. */
  lemma Created(scope: Scope, orderId: Option<nat>)
    ensures var c := Mounted(scope, orderId);
            && Idle(c) && !c.active && c.epoch == 0 && c.scope == scope && c.orderId == orderId && !c.orderLoaded
            && c.snapshot == None && c.draft == BLANK && BLANK == Draft(Claim(0, true, 1), None)
  {
  }

  lemma Opened(c: Controller)
    ensures Start(c) == Segment(c.(active := true), Some(Restoring))
    ensures Stop(c) == c.(active := false, epoch := c.epoch + 1)
    ensures var s := Refresh(c);
            if c.scope == Incidents && (c.locked || c.intent != None) then s == Segment(c, None)
            else s.wait == Some(Loading(c.epoch + 1)) && s.c == c.(epoch := c.epoch + 1, busy := true, orderLoaded := false)
  {
  }

  // Answers.

  /** Only a load of the current attempt is shown, and only an expired session empties the form. */
  lemma ListsLoaded(c: Controller, epoch: nat, load: Load)
    ensures var d := AfterLoad(c, epoch, load);
            && (!Current(c, epoch) ==> d == c)
            && (Current(c, epoch) && load == Loaded ==> d == c.(busy := false, orderLoaded := c.orderId != None))
            && (Current(c, epoch) && load == NotLoaded(true) ==> d == c.(busy := false, draft := BLANK))
            && (Current(c, epoch) && load == NotLoaded(false) ==> d == c.(busy := false))
  {
    assert load == Loaded || load == NotLoaded(true) || load == NotLoaded(false);
  }

  lemma SaveAnswered(c: Controller, epoch: nat, i: Intent, ok: bool)
    ensures var s := AfterSave(c, epoch, i, ok);
            if ok then s == Segment(c, Some(Posting(epoch, i))) else s.wait == None && Released(c, s.c, epoch)
  {
  }

  /** Every answer of the incidents screen. An unheard answer, or a success that comes too late,
      changes nothing but the lock. A confirmed upload becomes the report of the frozen form if
      the order is loaded and the window open, and otherwise the discard of its evidence; a
      refused report becomes the discard of its evidence; both are stored before they are
      held. A discard refused because the session expired stays. Whatever else was answered
      is cleared away. */
  lemma IncidentsAnswered(c: Controller, epoch: nat, i: Intent, reply: Reply, open: bool, key: Key)
    requires c.scope == Incidents
    ensures var s := AfterReply(c, epoch, i, reply, open, key);
            match reply
            case Unknown => s.wait == None && Released(c, s.c, epoch)
            case Confirmed(evidence) =>
              if !Current(c, epoch) then s.wait == None && Released(c, s.c, epoch)
              else if i.command.Upload? then
                Follows(c, s, epoch, i, Uploaded, key,
                        if !Lost(c) && open then Report(c.orderId.value, c.snapshot.value.claim, evidence) else Discard(evidence))
              else s == Segment(c, Some(Clearing(epoch, i, Success)))
            case Refused(status) =>
              if i.command.Report? then Follows(c, s, epoch, i, Withdrawn(status), key, Discard(i.command.evidence))
              else if i.command.Discard? && status == Unauthorized then
                s.wait == None && (if Current(c, epoch) then s.c == c.(locked := false, busy := false, orderLoaded := false)
                                   else s.c == c.(locked := false))
              else s == Segment(c, Some(Clearing(epoch, i, Failure(status))))
  {
  }

  /** The next command is being stored in place of the prior one; the screen still holds that. */
  predicate Follows(c: Controller, s: Segment, epoch: nat, prior: Intent, why: Why, key: Key, command: Command) {
    && s.c == c && s.wait.Some? && s.wait.value.Advancing?
    && s.wait.value.epoch == epoch && s.wait.value.prior == prior && s.wait.value.why == why
    && s.wait.value.next == Intent(key, command) && StoredContext(c, s.wait.value.context)
  }

  /** The other screens clear after every definite answer, whether they are still there or not. */
  lemma PlainAnswered(c: Controller, epoch: nat, i: Intent, reply: Reply, open: bool, key: Key)
    requires c.scope != Incidents && i.command.Plain?
    ensures var s := AfterReply(c, epoch, i, reply, open, key);
            match reply
            case Unknown => s.wait == None && Released(c, s.c, epoch)
            case Confirmed(_) => s == Segment(c, Some(Clearing(epoch, i, Success)))
            case Refused(status) => s == Segment(c, Some(Clearing(epoch, i, Failure(status))))
  {
  }

  /** A stored follow-up replaces the held command and keeps form and snapshot. If it could not
      be stored, the upload stays held, and a refused report is cleared away. */
  lemma AdvanceAnswered(c: Controller, epoch: nat, prior: Intent, next: Intent, why: Why, ok: bool)
    ensures var s := AfterAdvance(c, epoch, prior, next, why, ok);
            match why
            case Uploaded =>
              s.wait == None && (if ok then Released(c.(intent := Some(next)), s.c, epoch) else Released(c, s.c, epoch))
            case Withdrawn(status) =>
              if !ok then s == Segment(c, Some(Clearing(epoch, prior, Failure(status))))
              else
                && s.wait == None
                && (if status == Unauthorized && Current(c, epoch)
                    then Released(c.(intent := Some(next), orderLoaded := false), s.c, epoch)
                    else Released(c.(intent := Some(next)), s.c, epoch))
  {
  }

  /** What a settled command leaves. Success empties the incidents screen. A refusal is shown only to
      the attempt it belongs to: it forgets the command and the snapshot, drops the photo of
      an upload or a discard, and an expired session empties the form. */
  lemma ClearAnswered(c: Controller, epoch: nat, i: Intent, settled: Settled)
    ensures var d := AfterClear(c, epoch, i, settled);
            match settled
            case Success =>
              if c.scope == Incidents then Released(c.(intent := None, snapshot := None, draft := BLANK), d, epoch)
              else if Current(c, epoch) then d == c.(intent := None, locked := false, busy := false)
              else d == c.(locked := false)
            case Failure(status) =>
              if !Current(c, epoch) then d == c.(locked := false)
              else
                && d.intent == None && d.snapshot == None && d.locked == false && d.busy == false
                && d.orderLoaded == (c.orderLoaded && status != Unauthorized)
                && (status == Unauthorized ==> d.draft == BLANK)
                && (status != Unauthorized && (i.command.Upload? || i.command.Discard?) ==> d.draft == Draft(c.draft.claim, None))
                && (status != Unauthorized && (i.command.Report? || i.command.Plain?) ==> d.draft == c.draft)
                && d.scope == c.scope && d.active == c.active && d.epoch == c.epoch && d.orderId == c.orderId
  {
    assert c.draft.(photo := None) == Draft(c.draft.claim, None);
  }

  lemma Expired(c: Controller)
    ensures AfterExpiry(c) == c.(intent := None, snapshot := None, draft := BLANK)
  {
  }

  /** A restored command is held at once by the other screens, even stopped ones. The incidents
      screen first takes over the order and the form stored with it, with the picture if it
      is the upload, and loads its lists. */
  lemma RestoreAnswered(c: Controller, i: Intent, context: Option<Context>)
    ensures var s := AfterRestore(c, Some((i, context)));
            if c.scope != Incidents then s == Segment(c.(intent := Some(i)), None)
            else
              && s.wait == Some(Resuming(i))
              && (context == None ==> s.c == c)
              && (context.Some? ==>
                    && s.c.orderId == Some(context.value.order) && s.c.snapshot.Some?
                    && s.c.snapshot.value.claim == context.value.claim && s.c.snapshot.value.photo.Some?
                    && s.c.snapshot.value.photo.value.uri == context.value.photo
                    && s.c.snapshot.value.photo.value.base64 == (if i.command.Upload? then Some(i.command.base64) else None)
                    && s.c == c.(orderId := s.c.orderId, snapshot := s.c.snapshot))
    ensures AfterRestore(c, None) == if c.scope == Incidents then Refresh(c) else Segment(c, None)
  {
  }

  /** Nothing is held before the lists have loaded; then the stored form is shown again. */
  lemma ResumeAnswered(c: Controller, i: Intent, listsLoaded: bool)
    ensures var d := AfterResume(c, i, listsLoaded);
            if listsLoaded && c.active then
              && d.intent == Some(i) && d.orderLoaded == (c.orderId != None)
              && (c.snapshot.Some? ==> d.draft == c.snapshot.value) && (c.snapshot == None ==> d.draft == c.draft)
              && d == c.(intent := d.intent, orderLoaded := d.orderLoaded, draft := d.draft)
            else d == c
  {
  }
}
