/**
 The device, the server and every mounted controller. A step lets one controller run to
 its next await, lets one waiting method resume with whatever storage or the network
 answered, or crashes the app. Nothing orders the steps, so a controller that was stopped
 may still be waiting while another one runs.

 Assumed: each call on the pending store takes effect at one point between the call and its
 return; identifiers for keys and photo files are fresh; startup photo cleanup runs before
 any controller is mounted; the server gives one evidence per upload key.
 */
module PendingWorld {
  import opened Wrappers
  import opened PendingSlot
  import opened PendingController

  /** One waiting method of one controller. */
  datatype Job = Job(owner: nat, at: Task)

  /** What happened so far. None of it is read by the code. */
  datatype History = History(
    made: map<Key, Command>,        // every command a controller built, by key
    written: set<Key>,              // keys the slot has ever held
    posted: set<Intent>,            // commands handed to the transport
    resolved: set<Key>,             // keys some controller got a settling answer for
    abandoned: set<Key>,            // upload keys removed because the report window had closed
    reported: map<Evidence, Key>,   // report keys the slot has held, by the evidence they name
    overlapped: bool,               // a resume overlapped a different upload of its controller
    crossed: bool,                  // a save stored an upload with the photo of another picture
    respent: bool)                  // a save rewrote an upload whose report had already been made

  datatype World = World(
    slot: Option<Record>,
    files: set<nat>,                // photo files on the device
    pixels: map<nat, nat>,          // what was copied into each file; never overwritten
    controllers: map<nat, Controller>,
    jobs: multiset<Job>,
    issued: map<Evidence, Key>,     // evidence the server gave, and the upload key it was for
    log: History)

  const BOOT := World(None, {}, map[], map[], multiset{}, map[],
                      History(map[], {}, {}, {}, {}, map[], false, false, false))

  datatype Step =
    | Mount(id: nat, scope: Scope, orderId: Option<nat>)
    | Start(id: nat) | Stop(id: nat) | Refresh(id: nat) | Unlock(id: nat)
    | SetClaim(id: nat, claim: Claim)
    | ChoosePhoto(id: nat, uri: nat, base64: nat)
    | DropPhoto(id: nat)
    | Report(id: nat, key: Key) | Request(id: nat, key: Key, request: nat)
    | Retry(id: nat, open: bool)
    | Saved(job: Job, fault: Fault)
    | Replied(job: Job, reply: Reply, open: bool, key: Key)
    | Advanced(job: Job, fault: Fault)
    | Cleared(job: Job, fault: Fault, unlinked: bool)
    | Restored(job: Job, fault: Fault)
    | Resumed(job: Job, listsLoaded: bool)
    | LoadDone(job: Job, load: Load)
    | Issue(i: Intent, evidence: Evidence)
    | Crash
    | Cleanup

  function Put(w: World, id: nat, c: Controller): World {
    w.(controllers := w.controllers[id := c])
  }

  function Go(w: World, id: nat, s: Segment): World {
    w.(controllers := w.controllers[id := s.c],
       jobs := if s.wait.None? then w.jobs else w.jobs + multiset{Job(id, s.wait.value)})
  }

  /** The job's method resumes and runs its next segment. */
  function Resume(w: World, j: Job, s: Segment): World {
    Go(w.(jobs := w.jobs - multiset{j}), j.owner, s)
  }

  predicate Waiting(w: World, j: Job) {
    j in w.jobs && j.owner in w.controllers
  }

  function Make(w: World, i: Intent): World {
    w.(log := w.log.(made := w.log.made[i.key := i.command]))
  }

  function Picture(w: World, uri: nat): nat {
    if uri in w.pixels then w.pixels[uri] else 0
  }

  /** What a restore makes of a record. A record without a body always has a context. */
  function Rebuilt(w: World, r: Record): Intent {
    Intent(r.key,
      if r.command.Some? then r.command.value
      else Upload(if r.context.Some? then Picture(w, r.context.value.photo) else 0))
  }

  predicate Holds(w: World, key: Key) {
    w.slot.Some? && w.slot.value.key == key
  }

  /** The record is now in the slot. */
  function Write(w: World, r: Record): World {
    w.(slot := Some(r),
       log := w.log.(
         written := w.log.written + {r.key},
         reported := if r.command.Some? && r.command.value.Report?
                     then w.log.reported[r.command.value.evidence := r.key] else w.log.reported))
  }

  function Store(w: World, slot: Option<Record>): World {
    if slot == w.slot then w
    else if slot.Some? then Write(w, slot.value)
    else w.(slot := None)
  }

  function Post(w: World, i: Intent): World {
    w.(log := w.log.(posted := w.log.posted + {i}))
  }

  /** The answers after which a command may be forgotten: a refusal, except a discard's by an
      expired session, and a success that reaches its attempt while the screen is there, or
      any success on the other screens. */
  predicate Settles(c: Controller, epoch: nat, i: Intent, reply: Reply) {
    match reply
    case Unknown => false
    case Refused(status) => !i.command.Discard? || status != Unauthorized
    case Confirmed(_) => c.scope != Incidents || (c.active && c.epoch == epoch)
  }

  function Hear(w: World, key: Key): World {
    w.(log := w.log.(resolved := w.log.resolved + {key}))
  }

  /** Some evidence the upload key was given is named by a report the slot has held. */
  predicate Spent(w: World, key: Key) {
    exists e :: e in w.issued && w.issued[e] == key && e in w.log.reported
  }

  /** What `restore` gives a screen: nothing, the command with its context, or an error
      because the photo of the stored upload cannot be read. */
  function Found(w: World, scope: Scope): Result<Option<(Intent, Option<Context>)>, ()> {
    if w.slot.None? || w.slot.value.scope != scope then Ok(None)
    else if w.slot.value.command.None?
            && (w.slot.value.context.None? || w.slot.value.context.value.photo !in w.files) then Err(())
    else Ok(Some((Rebuilt(w, w.slot.value), w.slot.value.context)))
  }

  /** A restore on that screen would give back exactly this command. */
  predicate Restorable(w: World, scope: Scope, i: Intent) {
    Found(w, scope).Ok? && Found(w, scope).value.Some? && Found(w, scope).value.value.0 == i
  }

  function ToSave(w: World, j: Job): Option<Record>
    requires Waiting(w, j) && j.at.Saving?
  {
    RecordOf(w.controllers[j.owner].scope, j.at.intent, j.at.context)
  }

  /** The slot has the record after this save: it was empty and storage took the record, or
      it held this very record already. */
  predicate Saves(w: World, s: Step) {
    && s.Saved? && s.job.at.Saving? && Waiting(w, s.job) && !s.fault.NotApplied?
    && ToSave(w, s.job).Some? && (w.slot.None? || w.slot == ToSave(w, s.job))
  }

  /** The controller hears of it and posts the command. */
  predicate Posts(w: World, s: Step) {
    Saves(w, s) && (w.slot.Some? || s.fault.Working?)
  }

  predicate SavesUpload(w: World, s: Step) {
    Saves(w, s) && s.job.at.intent.command.Upload?
  }

  // What a save could look at before it stores an upload.

  /** The photo the record names shows another picture than the body that will be posted. */
  predicate Crosses(w: World, s: Step) {
    SavesUpload(w, s) && s.job.at.context.Some?
    && Picture(w, s.job.at.context.value.photo) != s.job.at.intent.command.base64
  }

  /** The photo's file is gone or shows another picture. */
  predicate Unbacks(w: World, s: Step) {
    Crosses(w, s) || (SavesUpload(w, s) && s.job.at.context.Some? && s.job.at.context.value.photo !in w.files)
  }

  /** The slot is empty although this upload's evidence has been reported. */
  predicate Respends(w: World, s: Step) {
    SavesUpload(w, s) && w.slot.None? && Spent(w, s.job.at.intent.key)
  }

  predicate OtherUpload(i: Intent, key: Key) {
    i.command.Upload? && i.key != key
  }

  predicate ResumingOther(w: World, id: nat, key: Key) {
    exists j :: j in w.jobs && j.owner == id && j.at.Resuming? && OtherUpload(j.at.intent, key)
  }

  /** A resume replaces the snapshot of a controller that holds a different upload, or a
      new report replaces the snapshot a resume has just installed. */
  predicate Overlaps(w: World, s: Step) {
    || (s.Report? && Reports(w, s.id, s.key) && ResumingOther(w, s.id, s.key))
    || (s.Restored? && Resumes(w, s.job, s.fault)
        && ((w.controllers[s.job.owner].intent.Some?
             && OtherUpload(w.controllers[s.job.owner].intent.value, w.slot.value.key))
            || ResumingOther(w, s.job.owner, w.slot.value.key)))
  }

  predicate Reports(w: World, id: nat, key: Key) {
    id in w.controllers && key !in w.log.made && CanReport(w.controllers[id], true)
  }

  /** The restore gives a command whose context becomes the controller's snapshot. */
  predicate Resumes(w: World, j: Job, fault: Fault) {
    && Waiting(w, j) && j.at.Restoring? && !fault.NotApplied? && w.controllers[j.owner].scope.Incidents?
    && Found(w, Incidents).Ok? && Found(w, Incidents).value.Some? && Found(w, Incidents).value.value.1.Some?
  }

  // Resumption of each kind of job.

  function SavedStep(w: World, j: Job, fault: Fault): World
    requires Waiting(w, j) && j.at.Saving?
  {
    var c := w.controllers[j.owner];
    var r := ToSave(w, j);
    if r.None? then Resume(w, j, AfterSave(c, j.at.epoch, j.at.intent, false))
    else
      var out := Save(w.slot, r.value, fault);
      var n := Store(w, out.slot);
      Resume(if out.ok then Post(n, j.at.intent) else n, j, AfterSave(c, j.at.epoch, j.at.intent, out.ok))
  }

  predicate ReplyFits(w: World, i: Intent, reply: Reply) {
    reply.Confirmed? && i.command.Upload? ==> reply.evidence in w.issued && w.issued[reply.evidence] == i.key
  }

  function RepliedStep(w: World, j: Job, reply: Reply, open: bool, key: Key): World
    requires Waiting(w, j) && j.at.Posting?
  {
    var c := w.controllers[j.owner];
    if !ReplyFits(w, j.at.intent, reply) || key in w.log.made then w
    else
      var heard := if Settles(c, j.at.epoch, j.at.intent, reply) then Hear(w, j.at.intent.key) else w;
      var next := FollowUp(c, j.at.intent, reply, open, key);
      Resume(if next.Some? then Make(heard, next.value) else heard, j,
             AfterReply(c, j.at.epoch, j.at.intent, reply, open, key))
  }

  function AdvancedStep(w: World, j: Job, fault: Fault): World
    requires Waiting(w, j) && j.at.Advancing?
  {
    var c, t := w.controllers[j.owner], j.at;
    var r := RecordOf(c.scope, t.next, t.context);
    if r.None? then Resume(w, j, AfterAdvance(c, t.epoch, t.prior, t.next, t.why, false))
    else
      var out := Advance(w.slot, Holds(w, t.prior.key), r.value, fault);
      Resume(Store(w, out.slot), j,
             AfterAdvance(c, t.epoch, t.prior, t.next, t.why, out.ok))
  }

  /** `clear` removes the record and then the photo it names; a failed removal is ignored. */
  function Emptied(w: World, key: Key, fault: Fault, unlinked: bool): World {
    var slot := Clear(w.slot, Holds(w, key), fault).slot;
    if slot == w.slot then w
    else w.(slot := slot,
            files := if fault.Working? && unlinked && w.slot.Some? && w.slot.value.context.Some?
                     then w.files - {w.slot.value.context.value.photo} else w.files)
  }

  function ClearedStep(w: World, j: Job, fault: Fault, unlinked: bool): World
    requires Waiting(w, j) && (j.at.Clearing? || j.at.Expiring?)
  {
    var c, n := w.controllers[j.owner], Emptied(w, j.at.intent.key, fault, unlinked);
    if j.at.Clearing? then Resume(n, j, Segment(AfterClear(c, j.at.epoch, j.at.intent, j.at.settled), None))
    else
      Resume(if n.slot == w.slot then n else n.(log := n.log.(abandoned := n.log.abandoned + {j.at.intent.key})),
             j, Segment(AfterExpiry(c), None))
  }

  function RestoredStep(w: World, j: Job, fault: Fault): World
    requires Waiting(w, j) && j.at.Restoring?
  {
    var c := w.controllers[j.owner];
    var found := Found(w, c.scope);
    Resume(w, j, if fault.NotApplied? || found.Err? then Segment(c, None) else AfterRestore(c, found.value))
  }

  /** Only the incidents screen has photos. */
  predicate EditsPhoto(w: World, id: nat) {
    id in w.controllers && w.controllers[id].scope.Incidents?
  }

  function Effect(w: World, s: Step): World {
    match s
    case Mount(id, scope, orderId) =>
      if id in w.controllers then w else Put(w, id, Mounted(scope, orderId))
    case Start(id) => if id !in w.controllers then w else Go(w, id, PendingController.Start(w.controllers[id]))
    case Stop(id) => if id !in w.controllers then w else Put(w, id, PendingController.Stop(w.controllers[id]))
    case Refresh(id) => if id !in w.controllers then w else Go(w, id, PendingController.Refresh(w.controllers[id]))
    case Unlock(id) =>   // the cart controller unlocks before it reloads a changed cart
      if id !in w.controllers || !w.controllers[id].scope.Cart? then w
      else Put(w, id, w.controllers[id].(locked := false))
    case SetClaim(id, claim) =>
      if id !in w.controllers then w else Put(w, id, PendingController.SetClaim(w.controllers[id], claim))
    case ChoosePhoto(id, uri, base64) =>
      if !EditsPhoto(w, id) || uri in w.pixels then w
      else
        var c, photo := w.controllers[id], Some(Photo(uri, Some(base64)));
        var dropped := Dropped(c, photo);
        Put(w.(pixels := w.pixels[uri := base64],
               files := (if dropped.Some? then w.files - {dropped.value} else w.files) + {uri}),
            id, SetPhoto(c, photo))
    case DropPhoto(id) =>
      if !EditsPhoto(w, id) then w
      else
        var c := w.controllers[id];
        var dropped := Dropped(c, None);
        Put(w.(files := if dropped.Some? then w.files - {dropped.value} else w.files), id, SetPhoto(c, None))
    case Report(id, key) =>
      if !Reports(w, id, key) then w
      else
        var c := BeginReport(w.controllers[id], key);
        Put(Make(w, c.intent.value), id, c)
    case Request(id, key, request) =>
      if id !in w.controllers || key in w.log.made || !Editable(w.controllers[id]) then w
      else
        var c := BeginRequest(w.controllers[id], key, request);
        Put(Make(w, c.intent.value), id, c)
    case Retry(id, open) => if id !in w.controllers then w else Go(w, id, PendingController.Retry(w.controllers[id], open))
    case Saved(j, fault) => if !Waiting(w, j) || !j.at.Saving? then w else SavedStep(w, j, fault)
    case Replied(j, reply, open, key) =>
      if !Waiting(w, j) || !j.at.Posting? then w else RepliedStep(w, j, reply, open, key)
    case Advanced(j, fault) => if !Waiting(w, j) || !j.at.Advancing? then w else AdvancedStep(w, j, fault)
    case Cleared(j, fault, unlinked) =>
      if !Waiting(w, j) || !(j.at.Clearing? || j.at.Expiring?) then w else ClearedStep(w, j, fault, unlinked)
    case Restored(j, fault) => if !Waiting(w, j) || !j.at.Restoring? then w else RestoredStep(w, j, fault)
    case Resumed(j, listsLoaded) =>
      if !Waiting(w, j) || !j.at.Resuming? then w
      else Resume(w, j, Segment(AfterResume(w.controllers[j.owner], j.at.intent, listsLoaded), None))
    case LoadDone(j, load) =>
      if !Waiting(w, j) || !j.at.Loading? then w
      else Resume(w, j, Segment(AfterLoad(w.controllers[j.owner], j.at.epoch, load), None))
    case Issue(i, evidence) =>
      if i !in w.log.posted || !i.command.Upload? || evidence in w.issued || (exists e :: e in w.issued && w.issued[e] == i.key)
      then w else w.(issued := w.issued[evidence := i.key])
    case Crash => w.(controllers := map[], jobs := multiset{})
    case Cleanup =>
      if w.controllers != map[] then w
      else w.(files := if w.slot.Some? && w.slot.value.context.Some?
                       then w.files * {w.slot.value.context.value.photo} else {})
  }

  function Flagged(w: World, s: Step): World {
    w.(log := w.log.(
      overlapped := w.log.overlapped || Overlaps(w, s),
      crossed := w.log.crossed || Crosses(w, s),
      respent := w.log.respent || Respends(w, s)))
  }

  function Next(w: World, s: Step): World {
    Effect(Flagged(w, s), s)
  }

  function Run(w: World, steps: seq<Step>): World
    decreases |steps|
  {
    if steps == [] then w else Next(Run(w, steps[..|steps| - 1]), steps[|steps| - 1])
  }
}
