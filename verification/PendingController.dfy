/**
 The controllers of the mobile screens that send commands, as values. A controller's
 asynchronous methods run in segments between awaits; each function below is one segment.
 It gives the controller's fields afterwards and, where the segment ends in another await,
 the `Task` that waits there. `NativeIncidents` proves the same segments on a class.

 Every screen shares the skeleton retry: save, post, clear. The incidents screen adds the
 chain upload, then report or discard. What only decides which button is shown (loaded
 lists, error and message texts) is left out, so the model allows more runs than the screens.
 */
module PendingController {
  import opened Wrappers

  type Key = nat
  type Evidence = nat

  datatype Scope = Cart | Checkout | Orders | Incidents | Support | Wallet

  /** What the buyer reports: the order item, whether it is damaged or missing, how many. */
  datatype Claim = Claim(item: nat, damaged: bool, quantity: nat)
  /** `base64` is the picture; a command restored after the upload carries none. */
  datatype Photo = Photo(uri: nat, base64: Option<nat>)
  datatype Draft = Draft(claim: Claim, photo: Option<Photo>)
  datatype Context = Context(order: nat, claim: Claim, photo: nat)

  const BLANK := Draft(Claim(0, true, 1), None)

  /** A path and body. `Plain` is any command that is not part of the incident chain. */
  datatype Command =
    | Plain(request: nat)
    | Upload(base64: nat)
    | Report(order: nat, claim: Claim, evidence: Evidence)
    | Discard(evidence: Evidence)
  datatype Intent = Intent(key: Key, command: Command)

  /** What the slot stores. An upload's body is left out: the photo file has it. */
  datatype Record = Record(scope: Scope, key: Key, command: Option<Command>, context: Option<Context>)

  predicate Allowed(scope: Scope, command: Command) {
    command.Plain? || scope.Incidents?
  }

  function RecordOf(scope: Scope, i: Intent, context: Option<Context>): (r: Option<Record>)
    ensures r.Some? ==> r.value.key == i.key && (r.value.command.None? <==> i.command.Upload?)
    ensures r.Some? && i.command.Upload? ==> scope.Incidents? && r.value.scope == scope && context.Some?
  {
    if !Allowed(scope, i.command) || (i.command.Upload? && context.None?) then None
    else Some(Record(scope, i.key, if i.command.Upload? then None else Some(i.command), context))
  }

  datatype Controller = Controller(
    scope: Scope, active: bool, epoch: nat, locked: bool, busy: bool,
    orderId: Option<nat>, orderLoaded: bool, draft: Draft, intent: Option<Intent>, snapshot: Option<Draft>)

  datatype Status = Unauthorized | Conflict | OtherRefusal
  /** How a post ends for the client. `Unknown` is status 503. */
  datatype Reply = Confirmed(evidence: Evidence) | Refused(status: Status) | Unknown
  datatype Settled = Success | Failure(status: Status)
  datatype Why = Uploaded | Withdrawn(status: Status)
  datatype Load = Loaded | NotLoaded(unauthorized: bool)

  /** Where a suspended asynchronous method waits, with the locals it will need. */
  datatype Task =
    | Saving(epoch: nat, intent: Intent, context: Option<Context>)
    | Posting(epoch: nat, intent: Intent)
    | Advancing(epoch: nat, prior: Intent, next: Intent, context: Option<Context>, why: Why)
    | Clearing(epoch: nat, intent: Intent, settled: Settled)
    | Expiring(intent: Intent)
    | Restoring
    | Resuming(intent: Intent)
    | Loading(epoch: nat)

  datatype Segment = Segment(c: Controller, wait: Option<Task>)

  function Mounted(scope: Scope, orderId: Option<nat>): Controller {
    Controller(scope, false, 0, false, false, orderId, false, BLANK, None, None)
  }

  function Start(c: Controller): Segment {
    Segment(c.(active := true), Some(Restoring))
  }

  function Stop(c: Controller): Controller {
    c.(active := false, epoch := c.epoch + 1)
  }

  /** The single-command screens also reload unguarded, after a resume or a reply. */
  function Refresh(c: Controller): Segment {
    if c.scope.Incidents? && (c.locked || c.intent.Some?) then Segment(c, None)
    else Segment(c.(epoch := c.epoch + 1, busy := true, orderLoaded := false), Some(Loading(c.epoch + 1)))
  }

  function AfterLoad(c: Controller, epoch: nat, load: Load): Controller {
    if !c.active || epoch != c.epoch then c
    else if load.Loaded? then c.(busy := false, orderLoaded := c.orderId.Some?)
    else c.(busy := false, draft := if load.unauthorized then BLANK else c.draft)
  }

  predicate Editable(c: Controller) {
    !c.locked && !c.busy && c.intent.None?
  }

  function SetClaim(c: Controller, claim: Claim): Controller {
    if Editable(c) then c.(draft := c.draft.(claim := claim)) else c
  }

  function SetPhoto(c: Controller, photo: Option<Photo>): Controller {
    if Editable(c) then c.(draft := c.draft.(photo := photo)) else c
  }

  /** The file an edit of the photo deletes. */
  function Dropped(c: Controller, photo: Option<Photo>): Option<nat> {
    if Editable(c) && c.draft.photo.Some? && (photo.None? || photo.value.uri != c.draft.photo.value.uri)
    then Some(c.draft.photo.value.uri) else None
  }

  /** `fits` says the rest of what is shown allows a report: no error, the report window is
      open, the item and quantity are the order's, and the picture has the form of a JPEG. */
  predicate CanReport(c: Controller, fits: bool) {
    && c.scope.Incidents? && Editable(c) && c.orderLoaded && fits
    && c.draft.photo.Some? && c.draft.photo.value.base64.Some?
  }

  function BeginReport(c: Controller, key: Key): Controller
    requires CanReport(c, true)
  {
    c.(snapshot := Some(c.draft), intent := Some(Intent(key, Upload(c.draft.photo.value.base64.value))))
  }

  function BeginRequest(c: Controller, key: Key, request: nat): Controller
    requires Editable(c)
  {
    c.(intent := Some(Intent(key, Plain(request))))
  }

  function ContextOf(c: Controller): Option<Context> {
    if c.snapshot.Some? && c.snapshot.value.photo.Some? && c.orderId.Some?
    then Some(Context(c.orderId.value, c.snapshot.value.claim, c.snapshot.value.photo.value.uri))
    else None
  }

  /** `open` says the report window of the loaded order is open now. */
  function Retry(c: Controller, open: bool): Segment {
    if c.locked || (c.busy && !c.scope.Cart?) || c.intent.None? then Segment(c, None)
    else if c.intent.value.command.Upload? && (c.snapshot.None? || c.orderId.None? || !c.orderLoaded) then
      Segment(c, Some(Restoring))
    else if c.intent.value.command.Upload? && !open then Segment(c, Some(Expiring(c.intent.value)))
    else Segment(
      c.(locked := true, epoch := c.epoch + 1, busy := true),
      Some(Saving(c.epoch + 1, c.intent.value, ContextOf(c))))
  }

  /** The `finally` block. */
  function Finish(c: Controller, epoch: nat): Controller {
    c.(locked := false, busy := c.busy && !(c.active && epoch == c.epoch))
  }

  function AfterSave(c: Controller, epoch: nat, i: Intent, ok: bool): Segment {
    if ok then Segment(c, Some(Posting(epoch, i))) else Segment(Finish(c, epoch), None)
  }

  /** `key` is the identifier drawn for a follow-up command, if one is made. */
  function FollowUp(c: Controller, i: Intent, reply: Reply, open: bool, key: Key): Option<Intent> {
    if reply.Confirmed? && i.command.Upload? then
      Some(Intent(key,
        if c.snapshot.None? || c.orderId.None? || !c.orderLoaded || !open then Discard(reply.evidence)
        else Report(c.orderId.value, c.snapshot.value.claim, reply.evidence)))
    else if reply.Refused? && i.command.Report? then Some(Intent(key, Discard(i.command.evidence)))
    else None
  }

  /** A success reaching a stopped or superseded incidents controller is ignored. */
  predicate Ignored(c: Controller, epoch: nat, reply: Reply) {
    reply.Confirmed? && c.scope.Incidents? && !(c.active && epoch == c.epoch)
  }

  function AfterReply(c: Controller, epoch: nat, i: Intent, reply: Reply, open: bool, key: Key): Segment {
    var next := FollowUp(c, i, reply, open, key);
    if reply.Unknown? || Ignored(c, epoch, reply) then Segment(Finish(c, epoch), None)
    else if next.Some? then
      var why := if reply.Confirmed? then Uploaded else Withdrawn(reply.status);
      Segment(c, Some(Advancing(epoch, i, next.value, ContextOf(c), why)))
    else if reply.Refused? && i.command.Discard? && reply.status.Unauthorized? then
      Segment(Finish(c.(orderLoaded := c.orderLoaded && !(c.active && epoch == c.epoch)), epoch), None)
    else Segment(c, Some(Clearing(epoch, i, if reply.Confirmed? then Success else Failure(reply.status))))
  }

  function AfterAdvance(c: Controller, epoch: nat, prior: Intent, next: Intent, why: Why, ok: bool): Segment {
    if !ok && why.Withdrawn? then Segment(c, Some(Clearing(epoch, prior, Failure(why.status))))
    else if !ok then Segment(Finish(c, epoch), None)
    else
      var lost := why.Withdrawn? && why.status.Unauthorized? && c.active && epoch == c.epoch;
      Segment(Finish(c.(intent := Some(next), orderLoaded := c.orderLoaded && !lost), epoch), None)
  }

  function AfterClear(c: Controller, epoch: nat, i: Intent, settled: Settled): Controller {
    var current := c.active && epoch == c.epoch;
    var shown :=
      if settled.Success? then
        if c.scope.Incidents? then c.(intent := None, snapshot := None, draft := BLANK)
        else if current then c.(intent := None) else c
      else if !current then c
      else c.(intent := None, snapshot := None,
              orderLoaded := c.orderLoaded && !settled.status.Unauthorized?,
              draft := if settled.status.Unauthorized? then BLANK
                       else if i.command.Upload? || i.command.Discard? then c.draft.(photo := None)
                       else c.draft);
    Finish(shown, epoch)
  }

  function AfterExpiry(c: Controller): Controller {
    c.(intent := None, snapshot := None, draft := BLANK)
  }

  /** The restored command and its context, if the slot has one for this screen. */
  function AfterRestore(c: Controller, found: Option<(Intent, Option<Context>)>): Segment {
    if found.None? then (if c.scope.Incidents? then Refresh(c) else Segment(c, None))
    else
      var (i, context) := found.value;
      if !c.scope.Incidents? then Segment(c.(intent := Some(i)), None)
      else if context.None? then Segment(c, Some(Resuming(i)))
      else
        var x := context.value;
        var picture := if i.command.Upload? then Some(i.command.base64) else None;
        Segment(c.(orderId := Some(x.order), snapshot := Some(Draft(x.claim, Some(Photo(x.photo, picture))))),
                Some(Resuming(i)))
  }

  function AfterResume(c: Controller, i: Intent, listsLoaded: bool): Controller {
    if listsLoaded && c.active then
      c.(intent := Some(i), orderLoaded := c.orderId.Some?,
         draft := if c.snapshot.Some? then c.snapshot.value else c.draft)
    else c
  }
}
