/**
 Disciplined runs keep the photos too, unless the event that `PendingRuns.PhotoLost` shows
 happens: a refused report whose move to the discard fails.
 */
module PendingKept {
  import opened Wrappers
  import opened PendingSlot
  import opened PendingController
  import opened PendingWorld
  import opened PendingInvariants
  import opened PendingPreservation
  import opened PendingHistory
  import opened PendingTheorems
  import opened PendingPhotos
  import opened PendingDiscipline
  import opened PendingSerial

  /** A report was refused, and the move to the discard of its evidence does not succeed. */
  predicate Strands(w: World, s: Step) {
    && s.Advanced? && Waiting(w, s.job) && s.job.at.Advancing? && s.job.at.why.Withdrawn?
    && var r := RecordOf(w.controllers[s.job.owner].scope, s.job.at.next, s.job.at.context);
       r.None? || !Advance(w.slot, Holds(w, s.job.at.prior.key), r.value, s.fault).ok
  }

  predicate StrandsAt(steps: seq<Step>, k: nat)
    requires k < |steps|
  {
    Strands(Before(steps, k), steps[k])
  }

  function SlotPhoto(w: World): Option<nat> {
    if w.slot.Some? && w.slot.value.context.Some? then Some(w.slot.value.context.value.photo) else None
  }

  function UriOf(d: Option<Draft>): Option<nat> {
    if d.Some? && d.value.photo.Some? then Some(d.value.photo.value.uri) else None
  }

  predicate HoldsUpload(c: Controller) {
    c.intent.Some? && c.intent.value.command.Upload?
  }

  predicate PlainHeld(w: World) {
    w.slot.Some? && w.slot.value.command.Some? && w.slot.value.command.value.Plain?
  }

  /** The photo of a held upload exists, and clearing a plain command will not remove it. */
  predicate UploadPhoto(w: World, c: Controller) {
    HoldsUpload(c) && UriOf(c.snapshot).Some? ==>
      UriOf(c.snapshot).value in w.files && (PlainHeld(w) ==> SlotPhoto(w) != UriOf(c.snapshot))
  }

  predicate Reportable(c: Controller) {
    c.draft.photo.Some? && c.draft.photo.value.base64.Some?
  }

  /** The photo of a draft that can still be reported exists and is nobody else's. */
  predicate DraftPhoto(w: World, c: Controller) {
    (c.intent.None? || c.intent.value.command.Plain?) && Reportable(c) ==>
      && c.draft.photo.value.uri in w.files
      && UriOf(c.snapshot) != Some(c.draft.photo.value.uri) && SlotPhoto(w) != Some(c.draft.photo.value.uri)
  }

  /** Dropping the draft's photo does not take it from a stored upload. */
  predicate DraftApart(w: World, c: Controller) {
    !HoldsUpload(c) && c.draft.photo.Some? ==> Needed(w.slot) != Some(c.draft.photo.value.uri)
  }

  predicate PhotosKept(w: World, c: Controller) {
    UploadPhoto(w, c) && DraftPhoto(w, c) && DraftApart(w, c)
  }

  predicate TaskKeeps(w: World, c: Controller, t: Task) {
    match t
    case Saving(epoch, i, context) =>
      && (c.active ==> epoch == c.epoch)
      && (i.command.Upload? && context.Some? ==> UriOf(c.snapshot) == Some(context.value.photo))
      && (i.command.Plain? && context.Some? && Reportable(c) ==> context.value.photo != c.draft.photo.value.uri)
    case Posting(epoch, _) => c.active ==> epoch == c.epoch
    case Advancing(epoch, prior, next, _, why) =>
      && (c.active ==> epoch == c.epoch) && (next.command.Report? || next.command.Discard?)
      && (if why.Uploaded? then prior.command.Upload? else prior.command.Report?)
    case Clearing(epoch, i, settled) => (c.active ==> epoch == c.epoch) && (settled.Failure? ==> !i.command.Report?)
    case Restoring => c.snapshot.None?
    case Resuming(i) =>
      if i.command.Upload? then UriOf(c.snapshot).Some? ==> UriOf(c.snapshot).value in w.files
      else Needed(w.slot).None?
           && (c.snapshot.Some? && c.snapshot.value.photo.Some? ==> c.snapshot.value.photo.value.base64.None?)
    case _ => true
  }

  predicate LiveKept(w: World, id: nat)
    requires id in w.controllers
  {
    var c := w.controllers[id];
    && PhotosKept(w, c)
    && (!c.active && c.epoch == 0 ==> c.snapshot.None? && c.draft == BLANK)
    && (forall j :: j in w.jobs && j.owner == id ==> TaskKeeps(w, c, j.at))
  }

  predicate NoContext(t: Task) {
    t.Saving? ==> t.context.None?
  }

  /** The other screens have no photos. */
  predicate PhotoFree(w: World, id: nat)
    requires id in w.controllers
  {
    w.controllers[id].snapshot.None? && forall j :: j in w.jobs && j.owner == id ==> NoContext(j.at)
  }

  predicate Kept(w: World) {
    forall id :: id in w.controllers ==>
      if w.controllers[id].scope.Incidents? then Retired(w, id) || LiveKept(w, id) else PhotoFree(w, id)
  }

  // What the others keep while one controller moves.

  lemma RetiredOther(w: World, n: World, id: nat)
    requires id in w.controllers && id in n.controllers && n.controllers[id] == w.controllers[id]
    requires forall j: Job :: j.owner == id ==> n.jobs[j] == w.jobs[j]
    ensures Retired(w, id) ==> Retired(n, id)
    ensures PhotoFree(w, id) ==> PhotoFree(n, id)
    ensures n.slot == w.slot && n.files == w.files && LiveKept(w, id) ==> LiveKept(n, id)
  {
    QuietSame(w, n, id);
    if n.slot == w.slot && n.files == w.files && LiveKept(w, id) {
      var c := w.controllers[id];
      assert PhotosKept(n, c);
      forall j | j in n.jobs && j.owner == id ensures TaskKeeps(n, c, j.at) { assert TaskKeeps(w, c, j.at); }
      hide PhotosKept, TaskKeeps;
    }
  }

  /** The live incidents controller moves. */
  lemma LiveKeeps(w: World, n: World, id: nat)
    requires Kept(w) && OthersRetired(w, id) && OthersSame(w, n, id)
    requires n.controllers[id].scope.Incidents? && (Retired(n, id) || LiveKept(n, id))
    ensures Kept(n)
  {
    hide Retired, LiveKept, PhotoFree;
    forall i | i in n.controllers && i != id
      ensures if n.controllers[i].scope.Incidents? then Retired(n, i) else PhotoFree(n, i)
    {
      assert i in w.controllers && n.controllers[i] == w.controllers[i];
      if w.controllers[i].scope.Incidents? { assert Incident(w, i); }
      RetiredOther(w, n, i);
    }
  }

  /** A controller of another screen moves. */
  lemma FreeKeeps(w: World, n: World, id: nat)
    requires Kept(w) && OthersSame(w, n, id) && n.slot == w.slot && n.files == w.files
    requires !n.controllers[id].scope.Incidents? && PhotoFree(n, id)
    ensures Kept(n)
  {
    hide Retired, LiveKept, PhotoFree;
    forall i | i in n.controllers && i != id
      ensures if n.controllers[i].scope.Incidents? then Retired(n, i) || LiveKept(n, i) else PhotoFree(n, i)
    {
      assert i in w.controllers && n.controllers[i] == w.controllers[i];
      RetiredOther(w, n, i);
    }
  }

  /** What other screens do to storage: they store plain commands without a context in an
      empty slot, and remove plain commands. */
  predicate Gentle(w: World, m: World) {
    || (m.slot == w.slot && w.files <= m.files)
    || (w.slot.None? && m.files == w.files && PlainHeld(m) && SlotPhoto(m).None?)
    || (PlainHeld(w) && m.slot.None? && (forall u :: u in w.files && SlotPhoto(w) != Some(u) ==> u in m.files))
  }

  lemma GentlePhotos(w: World, m: World, c: Controller)
    requires Gentle(w, m) && PhotosKept(w, c)
    ensures PhotosKept(m, c)
  {
  }

  lemma GentleTask(w: World, m: World, j: Job)
    requires Inv(w) && Waiting(w, j) && Gentle(w, m) && TaskFits(w, w.controllers[j.owner], j.at)
    requires TaskKeeps(w, w.controllers[j.owner], j.at)
    ensures TaskKeeps(m, w.controllers[j.owner], j.at)
  {
    if j.at.Resuming? && j.at.intent.command.Upload? { UploadHeld(w, j); }
    hide Inv;
  }

  lemma GentleKeeps(w: World, m: World)
    requires Inv(w) && Tidy(w) && Kept(w) && Gentle(w, m) && m.controllers == w.controllers && m.jobs == w.jobs
    ensures Kept(m)
  {
    forall id | id in m.controllers
      ensures if m.controllers[id].scope.Incidents? then Retired(m, id) || LiveKept(m, id) else PhotoFree(m, id)
    {
      if w.controllers[id].scope.Incidents? && !Retired(w, id) { GentleLive(w, m, id); }
    }
    hide Inv, Tidy, LiveKept;
  }

  lemma GentleLive(w: World, m: World, id: nat)
    requires Inv(w) && Tidy(w) && Gentle(w, m) && m.controllers == w.controllers && m.jobs == w.jobs
    requires Incident(w, id) && LiveKept(w, id)
    ensures LiveKept(m, id)
  {
    IncidentOf(w, id);
    assert Ordered(w, id);
    GentlePhotos(w, m, w.controllers[id]);
    hide Inv, Tidy, TaskFits, TaskKeeps, PhotosKept, Gentle;
    forall j | j in m.jobs && j.owner == id ensures TaskKeeps(m, m.controllers[id], j.at) { GentleTask(w, m, j); }
  }

  // The live incidents controller.

  lemma SamePhotos(w: World, n: World, c: Controller)
    requires n.slot == w.slot && n.files == w.files
    ensures PhotosKept(n, c) == PhotosKept(w, c)
    ensures forall t :: TaskKeeps(n, c, t) == TaskKeeps(w, c, t)
  {
  }

  lemma GoKept(w: World, id: nat, s: Segment)
    requires Tidy(w) && Kept(w) && Incident(w, id) && Quiet(w, id) && OthersRetired(w, id)
    requires PhotosKept(w, s.c) && s.c.scope.Incidents? && (s.c.active || s.c.epoch >= 1)
    requires s.wait.Some? ==> TaskKeeps(w, s.c, s.wait.value)
    ensures Kept(Go(w, id, s))
  {
    var n := Go(w, id, s);
    SamePhotos(w, n, s.c);
    forall j | j in n.jobs && j.owner == id ensures TaskKeeps(n, s.c, j.at) {
      if j in w.jobs { assert j.at.Loading?; }
    }
    assert OthersSame(w, n, id);
    assert LiveKept(n, id) by { hide PhotosKept, TaskKeeps; }
    hide LiveKept, Kept, Tidy, Quiet, TaskKeeps, PhotosKept, Go, OthersSame;
    LiveKeeps(w, n, id);
  }

  lemma ResumeLive(m: World, j: Job, s: Segment)
    requires Waiting(m, j) && Serial(m, j.owner) && !j.at.Loading? && (s.c.active || s.c.epoch >= 1)
    requires PhotosKept(m, s.c) || (!s.c.active && s.wait.None?)
    requires s.wait.Some? ==> TaskKeeps(m, s.c, s.wait.value)
    ensures var n := Resume(m, j, s); Retired(n, j.owner) || LiveKept(n, j.owner)
  {
    var n := Resume(m, j, s);
    var rest := m.(jobs := m.jobs - multiset{j});
    NowQuiet(m, j);
    SamePhotos(m, n, s.c);
    hide PhotosKept, TaskKeeps, Serial;
    forall k | k in n.jobs && k.owner == j.owner
      ensures k.at.Loading? || (s.wait.Some? && k.at == s.wait.value)
    {
      if k in rest.jobs { assert k.at.Loading?; }
    }
    if PhotosKept(m, s.c) {
      forall k | k in n.jobs && k.owner == j.owner ensures TaskKeeps(n, s.c, k.at) { LoadingKeeps(n, s.c, k.at); }
      assert LiveKept(n, j.owner);
    }
  }

  lemma LoadingKeeps(w: World, c: Controller, t: Task)
    ensures t.Loading? ==> TaskKeeps(w, c, t)
  {
  }

  lemma ResumeKept(w: World, m: World, j: Job, s: Segment)
    requires Tidy(w) && Kept(w) && Waiting(w, j) && Incident(w, j.owner) && !j.at.Loading?
    requires m.controllers == w.controllers && m.jobs == w.jobs
    requires s.c.scope.Incidents? && (s.c.active || s.c.epoch >= 1)
    requires PhotosKept(m, s.c) || (!s.c.active && s.wait.None?)
    requires s.wait.Some? ==> TaskKeeps(m, s.c, s.wait.value)
    ensures Kept(Resume(m, j, s))
  {
    LiveByJob(w, j);
    SerialSame(w, m, j.owner);
    ResumeOthers(w, m, j, s);
    assert Resume(m, j, s).controllers[j.owner] == s.c;
    hide Tidy, Kept, OthersSame, OthersRetired, LiveKept, Retired, PhotosKept, TaskKeeps, Serial, Resume;
    ResumeLive(m, j, s);
    LiveKeeps(w, Resume(m, j, s), j.owner);
  }

  lemma LiveOf(w: World, id: nat)
    requires Tidy(w) && Kept(w) && Incident(w, id) && !Retired(w, id)
    ensures LiveKept(w, id) && Ordered(w, id)
  {
    IncidentOf(w, id);
    hide Tidy, LiveKept, Ordered, Retired, PhotoFree;
  }

  lemma OwnPhotos(w: World, j: Job)
    requires Inv(w) && Tidy(w) && Kept(w) && Waiting(w, j) && Incident(w, j.owner) && !j.at.Loading?
    ensures var c := w.controllers[j.owner];
            && TaskKeeps(w, c, j.at) && PhotosKept(w, c)
            && TaskFits(w, c, j.at) && Grounded(c) && (c.active || c.epoch >= 1) && TaskOk(w, c.snapshot, j.at)
  {
    OwnCommand(w, j);
    assert !Retired(w, j.owner);
    LiveOf(w, j.owner);
    hide Inv, Tidy, Kept, TaskKeeps, PhotosKept, TaskFits, Grounded, TaskOk;
  }

  // Presses.

  lemma RetryPhotos(w: World, c: Controller, open: bool)
    requires Grounded(c) && PhotosKept(w, c)
    ensures var s := PendingController.Retry(c, open);
            PhotosKept(w, s.c) && (s.wait.Some? ==> TaskKeeps(w, s.c, s.wait.value))
  {
  }

  lemma RefreshPhotos(w: World, c: Controller)
    requires PhotosKept(w, c)
    ensures var s := PendingController.Refresh(c);
            PhotosKept(w, s.c) && (s.wait.Some? ==> TaskKeeps(w, s.c, s.wait.value))
  {
  }

  lemma ClaimPhotos(w: World, c: Controller, claim: Claim)
    requires PhotosKept(w, c)
    ensures var d := PendingController.SetClaim(c, claim);
            PhotosKept(w, d) && d.scope == c.scope && d.active == c.active
  {
  }

  lemma ScreenPhotos(w: World, s: Step)
    requires Inv(w) && Tidy(w) && Kept(w) && (s.Refresh? || s.SetClaim? || s.Retry?)
    requires Incident(w, s.id) && Pressable(w, s.id)
    ensures Kept(Effect(w, s))
  {
    var c := w.controllers[s.id];
    IncidentOf(w, s.id);
    LiveOf(w, s.id);
    assert Quiet(w, s.id) && Grounded(c) && PhotosKept(w, c);
    hide Inv, Tidy, Kept, Quiet, OthersRetired, LiveKept, Ordered, Grounded, PhotosKept, TaskKeeps;
    match s
    case Refresh(_) => RefreshPhotos(w, c); GoKept(w, s.id, PendingController.Refresh(c));
    case SetClaim(_, claim) =>
      ClaimPhotos(w, c, claim);
      hide PendingController.SetClaim;
      GoKept(w, s.id, Segment(PendingController.SetClaim(c, claim), None));
    case Retry(_, open) => RetryPhotos(w, c, open); GoKept(w, s.id, PendingController.Retry(c, open));
    case _ => assert false;
  }

  lemma SameStoreKept(w: World, m: World)
    requires m.controllers == w.controllers && m.jobs == w.jobs && m.slot == w.slot && m.files == w.files
    ensures Kept(m) == Kept(w)
  {
    forall id | id in w.controllers
      ensures Retired(m, id) == Retired(w, id) && LiveKept(m, id) == LiveKept(w, id) && PhotoFree(m, id) == PhotoFree(w, id)
    {
      SamePhotos(w, m, w.controllers[id]);
      hide PhotosKept, TaskKeeps;
    }
    hide LiveKept, Retired, PhotoFree;
  }

  lemma RequestPhotos(w: World, s: Step)
    requires Inv(w) && Tidy(w) && Kept(w) && s.Request? && Incident(w, s.id) && Pressable(w, s.id)
    ensures Kept(Effect(w, s))
  {
    var c := w.controllers[s.id];
    if s.key !in w.log.made && Editable(c) {
      LiveOf(w, s.id);
      IncidentOf(w, s.id);
      var after := BeginRequest(c, s.key, s.request);
      var m := Make(w, after.intent.value);
      assert Effect(w, s) == Put(m, s.id, after);
      assert PhotosKept(w, after);
      hide Inv, Tidy, Kept, Effect, PhotosKept, LiveKept, Ordered, OthersRetired;
      GoKept(w, s.id, Segment(after, None));
      SameStoreKept(Go(w, s.id, Segment(after, None)), Put(m, s.id, after));
    }
  }

  lemma ReportPhotos(w: World, s: Step)
    requires Inv(w) && Tidy(w) && Kept(w) && s.Report? && Incident(w, s.id) && Pressable(w, s.id)
    ensures Kept(Effect(w, s))
  {
    var c := w.controllers[s.id];
    if Reports(w, s.id, s.key) {
      LiveOf(w, s.id);
      IncidentOf(w, s.id);
      var after := BeginReport(c, s.key);
      var m := Make(w, after.intent.value);
      assert Effect(w, s) == Put(m, s.id, after);
      assert PhotosKept(w, after);
      hide Inv, Tidy, Kept, Effect, PhotosKept, LiveKept, Ordered, OthersRetired, BeginReport;
      GoKept(w, s.id, Segment(after, None));
      SameStoreKept(Go(w, s.id, Segment(after, None)), Put(m, s.id, after));
    }
  }

  function Chosen(s: Step): Option<Photo>
    requires s.ChoosePhoto? || s.DropPhoto?
  {
    if s.ChoosePhoto? then Some(Photo(s.uri, Some(s.base64))) else None
  }

  lemma EditEffect(w: World, s: Step)
    requires (s.ChoosePhoto? || s.DropPhoto?) && EditsPhoto(w, s.id) && (s.ChoosePhoto? ==> s.uri !in w.pixels)
    ensures var n := Effect(w, s); var d := SetPhoto(w.controllers[s.id], Chosen(s));
            && n.controllers == w.controllers[s.id := d] && n.jobs == w.jobs && n.slot == w.slot
            && d.scope == w.controllers[s.id].scope && d.active == w.controllers[s.id].active
            && OthersSame(w, n, s.id)
  {
  }

  lemma SlotPhotoKnown(w: World)
    requires Inv(w)
    ensures SlotPhoto(w).Some? ==> SlotPhoto(w).value in w.pixels
  {
    assert SlotOk(w);
    hide ControllersOk, JobsOk, HistoryOk, IntentOk;
  }

  /** A photo file is added or the draft's own is dropped. */
  lemma EditKept(w: World, s: Step)
    requires Inv(w) && Tidy(w) && Kept(w) && (s.ChoosePhoto? || s.DropPhoto?)
    requires Incident(w, s.id) && Pressable(w, s.id)
    ensures Kept(Effect(w, s))
  {
    var c := w.controllers[s.id];
    if s.ChoosePhoto? ==> s.uri !in w.pixels {
      LiveOf(w, s.id);
      IncidentOf(w, s.id);
      ControllerOf(w, s.id);
      SlotPhotoKnown(w);
      EditEffect(w, s);
      hide Inv, Tidy, Kept, Effect, Ordered, OthersRetired, OthersSame, SetPhoto, ControllerOk;
      assert PhotosKept(w, c) && c.active && Quiet(w, s.id);
      EditPhotos(w, s, c);
      var n := Effect(w, s);
      QuietKept(w, n, s.id);
      hide LiveKept, PhotosKept;
      LiveKeeps(w, n, s.id);
    }
  }

  lemma QuietKept(w: World, n: World, id: nat)
    requires Quiet(w, id) && n.jobs == w.jobs && id in n.controllers
    requires PhotosKept(n, n.controllers[id]) && n.controllers[id].active
    ensures LiveKept(n, id)
  {
    hide PhotosKept, TaskKeeps;
    forall j | j in n.jobs && j.owner == id ensures TaskKeeps(n, n.controllers[id], j.at) {
      LoadingKeeps(n, n.controllers[id], j.at);
    }
  }

  lemma EditPhotos(w: World, s: Step, c: Controller)
    requires (s.ChoosePhoto? || s.DropPhoto?) && EditsPhoto(w, s.id) && (s.ChoosePhoto? ==> s.uri !in w.pixels)
    requires c == w.controllers[s.id] && PhotosKept(w, c) && ControllerOk(w, c)
    requires SlotPhoto(w).Some? ==> SlotPhoto(w).value in w.pixels
    ensures PhotosKept(Effect(w, s), SetPhoto(c, Chosen(s)))
  {
    hide IntentOk, Matches;
  }

  // Opening, starting and stopping the screen; lists.

  lemma MountKept(w: World, s: Step)
    requires Inv(w) && Tidy(w) && Kept(w) && s.Mount? && Disciplined(w, s)
    ensures Kept(Effect(w, s))
  {
    if s.id !in w.controllers {
      MountEffect(w, s);
      hide Inv, Tidy, Effect, OthersSame, Kept;
      var n := Effect(w, s);
      if s.scope.Incidents? {
        assert OthersRetired(w, s.id) && LiveKept(n, s.id);
        hide LiveKept;
        LiveKeeps(w, n, s.id);
      } else {
        assert PhotoFree(n, s.id);
        FreeKeeps(w, n, s.id);
      }
    }
  }

  lemma StartKept(w: World, id: nat)
    requires Tidy(w) && Kept(w) && Incident(w, id) && Disciplined(w, Step.Start(id))
    ensures Kept(Effect(w, Step.Start(id)))
  {
    IncidentOf(w, id);
    LiveOf(w, id);
    var c := w.controllers[id];
    assert c.intent.None? && Quiet(w, id) && c.snapshot.None? && c.draft == BLANK;
    hide Tidy, Kept, Quiet, Ordered, LiveKept, OthersRetired;
    GoKept(w, id, PendingController.Start(c));
  }

  lemma StopKept(w: World, id: nat)
    requires Tidy(w) && Kept(w) && Incident(w, id)
    ensures Kept(Effect(w, Step.Stop(id)))
  {
    var c, n := w.controllers[id], Effect(w, Step.Stop(id));
    NudgedKept(w, id, PendingController.Stop(c)) by { hide Kept, Tidy; }
  }

  /** The controller stops, or takes over what it loaded; a failed load may blank its draft. */
  lemma NudgedKept(w: World, id: nat, d: Controller)
    requires Kept(w) && Incident(w, id) && Nudged(w.controllers[id], d)
    requires d.draft == w.controllers[id].draft || (d.draft == BLANK && d.active)
    ensures Kept(Put(w, id, d))
  {
    var n, c := Put(w, id, d), w.controllers[id];
    forall i | i in n.controllers && i != id
      ensures if n.controllers[i].scope.Incidents? then Retired(n, i) || LiveKept(n, i) else PhotoFree(n, i)
    {
      hide Retired, LiveKept, PhotoFree;
      RetiredOther(w, n, i);
    }
    if Retired(w, id) {
      assert Retired(n, id);
    } else {
      assert LiveKept(w, id);
      NudgedPhotos(w, n, c, d);
      forall j | j in n.jobs && j.owner == id ensures TaskKeeps(n, d, j.at) { NudgedTask(w, n, c, d, j.at); }
      hide PhotosKept, TaskKeeps, Kept;
      assert LiveKept(n, id);
    }
    hide Retired, LiveKept, PhotoFree;
  }

  lemma NudgedPhotos(w: World, n: World, c: Controller, d: Controller)
    requires n.slot == w.slot && n.files == w.files && PhotosKept(w, c) && Nudged(c, d)
    requires d.draft == c.draft || d.draft == BLANK
    ensures PhotosKept(n, d)
  {
  }

  lemma NudgedTask(w: World, n: World, c: Controller, d: Controller, t: Task)
    requires n.slot == w.slot && n.files == w.files && TaskKeeps(w, c, t) && Nudged(c, d)
    requires d.draft == c.draft || d.draft == BLANK
    ensures TaskKeeps(n, d, t)
  {
  }

  lemma LoadKept(w: World, j: Job, load: Load)
    requires Tidy(w) && Kept(w) && Waiting(w, j) && j.at.Loading? && Incident(w, j.owner)
    ensures Kept(Effect(w, LoadDone(j, load)))
  {
    var m := w.(jobs := w.jobs - multiset{j});
    var d := AfterLoad(w.controllers[j.owner], j.at.epoch, load);
    FewerKept(w, j);
    assert Nudged(w.controllers[j.owner], d);
    assert d.draft == w.controllers[j.owner].draft || (d.draft == BLANK && d.active);
    assert Effect(w, LoadDone(j, load)) == Put(m, j.owner, d) by { hide AfterLoad; }
    hide Tidy, Kept, AfterLoad, Nudged, Effect;
    NudgedKept(m, j.owner, d);
  }

  lemma FewerKept(w: World, j: Job)
    requires Kept(w)
    ensures Kept(w.(jobs := w.jobs - multiset{j}))
  {
    var n := w.(jobs := w.jobs - multiset{j});
    assert forall k :: k in n.jobs ==> k in w.jobs;
    forall id | id in n.controllers
      ensures if n.controllers[id].scope.Incidents? then Retired(n, id) || LiveKept(n, id) else PhotoFree(n, id)
    {
      SamePhotos(w, n, w.controllers[id]);
      hide PhotosKept, TaskKeeps;
    }
    hide Retired, LiveKept, PhotoFree;
  }

  // Answers the live incidents controller waited for.

  lemma SavedPhotos(w: World, j: Job, m: World, ok: bool)
    requires Waiting(w, j) && j.at.Saving? && w.controllers[j.owner].scope.Incidents?
    requires var c := w.controllers[j.owner]; PhotosKept(w, c) && TaskKeeps(w, c, j.at) && c.intent == Some(j.at.intent)
    requires m.files == w.files && (m.slot == w.slot || (ToSave(w, j).Some? && m.slot == ToSave(w, j)))
    ensures var c := w.controllers[j.owner]; var s := AfterSave(c, j.at.epoch, j.at.intent, ok);
            PhotosKept(m, s.c) && (s.wait.Some? ==> TaskKeeps(m, s.c, s.wait.value))
  {
  }

  /** Whether the controller sees the save succeed, and the world it left. */
  function SaveOk(w: World, j: Job, fault: Fault): bool
    requires Waiting(w, j) && j.at.Saving?
  {
    ToSave(w, j).Some? && Save(w.slot, ToSave(w, j).value, fault).ok
  }

  function SaveWorld(w: World, j: Job, fault: Fault): World
    requires Waiting(w, j) && j.at.Saving?
  {
    var m := if ToSave(w, j).None? then w else Store(w, Save(w.slot, ToSave(w, j).value, fault).slot);
    if SaveOk(w, j, fault) then Post(m, j.at.intent) else m
  }

  lemma SaveParts(w: World, j: Job, fault: Fault)
    requires Waiting(w, j) && j.at.Saving?
    ensures SavedStep(w, j, fault) ==
            Resume(SaveWorld(w, j, fault), j, AfterSave(w.controllers[j.owner], j.at.epoch, j.at.intent, SaveOk(w, j, fault)))
  {
    hide ToSave, Save, Store, Post, AfterSave, Resume;
  }

  lemma SaveStorage(w: World, j: Job, fault: Fault)
    requires Waiting(w, j) && j.at.Saving?
    ensures var m := SaveWorld(w, j, fault);
            && m.files == w.files && m.controllers == w.controllers && m.jobs == w.jobs
            && (m.slot == w.slot || (ToSave(w, j).Some? && m.slot == ToSave(w, j)))
  {
    hide ToSave, Rebuilt;
  }

  lemma SavedKept(w: World, j: Job, fault: Fault)
    requires Inv(w) && Tidy(w) && Kept(w) && Waiting(w, j) && Incident(w, j.owner) && j.at.Saving?
    ensures Kept(SavedStep(w, j, fault))
  {
    var c, m, ok := w.controllers[j.owner], SaveWorld(w, j, fault), SaveOk(w, j, fault);
    OwnPhotos(w, j);
    assert c.intent == Some(j.at.intent);
    SaveParts(w, j, fault);
    SaveStorage(w, j, fault);
    var s := AfterSave(c, j.at.epoch, j.at.intent, ok);
    assert s.c.scope == c.scope && s.c.active == c.active && s.c.epoch == c.epoch;
    hide Inv, Tidy, Kept, SavedStep, SaveWorld, SaveOk, PhotosKept, TaskKeeps, TaskFits, TaskOk, Grounded, AfterSave,
         ToSave, Resume;
    SavedPhotos(w, j, m, ok);
    ResumeKept(w, m, j, s);
  }

  lemma ReplyPhotos(w: World, c: Controller, epoch: nat, i: Intent, reply: Reply, open: bool, key: Key)
    requires c.scope.Incidents? && c.intent == Some(i) && PhotosKept(w, c) && TaskKeeps(w, c, Posting(epoch, i))
    ensures var s := AfterReply(c, epoch, i, reply, open, key);
            && PhotosKept(w, s.c) && (s.wait.Some? ==> TaskKeeps(w, s.c, s.wait.value))
            && s.c.scope == c.scope && s.c.active == c.active && s.c.epoch == c.epoch
  {
    hide ContextOf;
  }

  lemma RepliedKept(w: World, j: Job, reply: Reply, open: bool, key: Key)
    requires Inv(w) && Tidy(w) && Kept(w) && Waiting(w, j) && Incident(w, j.owner) && j.at.Posting?
    ensures Kept(RepliedStep(w, j, reply, open, key))
  {
    var c, i := w.controllers[j.owner], j.at.intent;
    OwnPhotos(w, j);
    if ReplyFits(w, i, reply) && key !in w.log.made {
      var heard := if Settles(c, j.at.epoch, i, reply) then Hear(w, i.key) else w;
      var next := FollowUp(c, i, reply, open, key);
      var m := if next.Some? then Make(heard, next.value) else heard;
      var s := AfterReply(c, j.at.epoch, i, reply, open, key);
      assert RepliedStep(w, j, reply, open, key) == Resume(m, j, s) by { hide FollowUp, AfterReply, Resume; }
      assert m.slot == w.slot && m.files == w.files && m.controllers == w.controllers && m.jobs == w.jobs;
      SamePhotos(w, m, c);
      assert c.intent == Some(i) && TaskKeeps(m, c, Posting(j.at.epoch, i));
      hide Inv, Tidy, Kept, RepliedStep, FollowUp, AfterReply, Resume, PhotosKept, TaskFits, TaskOk, TaskKeeps, Grounded;
      ReplyPhotos(m, c, j.at.epoch, i, reply, open, key);
      ResumeKept(w, m, j, s);
    }
  }

  lemma AdvancePhotos(w: World, m: World, c: Controller, t: Task, ok: bool)
    requires t.Advancing? && c.intent == Some(t.prior) && PhotosKept(w, c) && TaskKeeps(w, c, t) && m.files == w.files
    requires !t.next.command.Upload? && !t.next.command.Plain?
    requires m.slot == w.slot || (m.slot.Some? && m.slot.value.command == Some(t.next.command))
    requires if ok then m.slot.Some? && m.slot.value.command == Some(t.next.command) else t.why.Uploaded?
    ensures var s := AfterAdvance(c, t.epoch, t.prior, t.next, t.why, ok);
            && PhotosKept(m, s.c) && s.wait.None?
            && s.c.scope == c.scope && s.c.active == c.active && s.c.epoch == c.epoch
  {
  }

  lemma AdvancedKept(w: World, j: Job, fault: Fault)
    requires Inv(w) && Tidy(w) && Kept(w) && Waiting(w, j) && Incident(w, j.owner) && j.at.Advancing?
    requires !Strands(w, Advanced(j, fault))
    ensures Kept(AdvancedStep(w, j, fault))
  {
    var c, t := w.controllers[j.owner], j.at;
    OwnPhotos(w, j);
    var r := RecordOf(c.scope, t.next, t.context);
    assert !t.next.command.Upload? && !t.next.command.Plain? && c.intent == Some(t.prior);
    assert r.Some? ==> r.value.command == Some(t.next.command);
    var out := if r.None? then Outcome(w.slot, false) else Advance(w.slot, Holds(w, t.prior.key), r.value, fault);
    assert out.slot == w.slot || (r.Some? && out.slot == r);
    assert if out.ok then r.Some? && out.slot == r else t.why.Uploaded?;
    var m := Store(w, out.slot);
    var s := AfterAdvance(c, t.epoch, t.prior, t.next, t.why, out.ok);
    assert AdvancedStep(w, j, fault) == Resume(m, j, s) by { hide RecordOf, Advance, Store, AfterAdvance, Resume; }
    assert m.slot == out.slot && m.files == w.files && m.controllers == w.controllers && m.jobs == w.jobs by { hide Rebuilt; }
    hide Inv, Tidy, Kept, AdvancedStep, Strands, Advance, Store, AfterAdvance, Resume, RecordOf,
         PhotosKept, TaskFits, TaskOk, TaskKeeps, Grounded;
    AdvancePhotos(w, m, c, t, out.ok);
    ResumeKept(w, m, j, s);
  }

  lemma ClearPhotos(w: World, m: World, c: Controller, t: Task)
    requires (t.Clearing? || t.Expiring?) && c.scope.Incidents? && c.intent == Some(t.intent)
    requires PhotosKept(w, c) && TaskKeeps(w, c, t)
    requires m.slot == w.slot || m.slot.None?
    requires forall u :: u in w.files && SlotPhoto(w) != Some(u) ==> u in m.files
    ensures var d := ClearedController(c, t);
            && (PhotosKept(m, d) || !d.active) && d.scope == c.scope && d.active == c.active && d.epoch == c.epoch
  {
  }

  lemma ClearedFiles(w: World, j: Job, fault: Fault, unlinked: bool)
    requires Waiting(w, j) && (j.at.Clearing? || j.at.Expiring?)
    ensures var m := Cleaned(w, j, fault, unlinked);
            forall u :: u in w.files && SlotPhoto(w) != Some(u) ==> u in m.files
  {
  }

  lemma ClearedKept(w: World, j: Job, fault: Fault, unlinked: bool)
    requires Inv(w) && Tidy(w) && Kept(w) && Waiting(w, j) && Incident(w, j.owner) && (j.at.Clearing? || j.at.Expiring?)
    ensures Kept(ClearedStep(w, j, fault, unlinked))
  {
    var c, m := w.controllers[j.owner], Cleaned(w, j, fault, unlinked);
    var d := ClearedController(c, j.at);
    OwnPhotos(w, j);
    assert c.intent == Some(j.at.intent);
    ClearedWorld(w, j, fault, unlinked);
    ClearedFiles(w, j, fault, unlinked);
    hide Inv, Tidy, Kept, ClearedStep, Cleaned, ClearedController, PhotosKept, TaskKeeps, TaskFits, TaskOk, Grounded, Resume;
    ClearPhotos(w, m, c, j.at);
    ResumeKept(w, m, j, Segment(d, None));
  }

  lemma RestorePhotos(w: World, c: Controller, found: Option<(Intent, Option<Context>)>)
    requires c.scope.Incidents? && c.intent.None? && c.snapshot.None? && PhotosKept(w, c)
    requires found.Some? ==>
               var (i, context) := found.value;
               && (context.Some? ==> SlotPhoto(w) == Some(context.value.photo))
               && (if i.command.Upload? then context.Some? && context.value.photo in w.files else Needed(w.slot).None?)
    ensures var s := AfterRestore(c, found);
            && PhotosKept(w, s.c) && (s.wait.Some? ==> TaskKeeps(w, s.c, s.wait.value))
            && s.c.scope == c.scope && s.c.active == c.active && s.c.epoch >= c.epoch
  {
    var s := AfterRestore(c, found);
    if found.Some? {
      var (i, context) := found.value;
      assert s.c.draft == c.draft && s.c.intent == c.intent;
      if context.Some? { assert UriOf(s.c.snapshot) == Some(context.value.photo) == SlotPhoto(w); }
      else { assert s.c.snapshot == c.snapshot; }
    }
  }

  lemma FoundPhotos(w: World)
    requires Inv(w) && Found(w, Incidents).Ok? && Found(w, Incidents).value.Some?
    ensures var (i, context) := Found(w, Incidents).value.value;
            && (context.Some? ==> SlotPhoto(w) == Some(context.value.photo))
            && (if i.command.Upload? then context.Some? && context.value.photo in w.files else Needed(w.slot).None?)
  {
    assert SlotOk(w);
    hide ControllersOk, JobsOk, HistoryOk;
  }

  lemma RestoredKept(w: World, j: Job, fault: Fault)
    requires Inv(w) && Tidy(w) && Kept(w) && Waiting(w, j) && Incident(w, j.owner) && j.at.Restoring?
    ensures Kept(RestoredStep(w, j, fault))
  {
    var c, found := w.controllers[j.owner], Found(w, Incidents);
    OwnPhotos(w, j);
    var s := if fault.NotApplied? || found.Err? then Segment(c, None) else AfterRestore(c, found.value);
    assert c.intent.None? && c.snapshot.None?;
    if !fault.NotApplied? && found.Ok? {
      if found.value.Some? { FoundPhotos(w); }
      RestorePhotos(w, c, found.value);
    }
    assert RestoredStep(w, j, fault) == Resume(w, j, s) by { hide Found, AfterRestore, Resume; }
    hide Inv, Tidy, Kept, RestoredStep, Found, AfterRestore, PhotosKept, TaskKeeps, TaskFits, TaskOk, Grounded, Resume;
    ResumeKept(w, w, j, s);
  }

  lemma ResumePhotos(w: World, c: Controller, i: Intent, listsLoaded: bool)
    requires c.intent.None? && PhotosKept(w, c) && TaskKeeps(w, c, Resuming(i))
    requires i.command.Upload? ==> !PlainHeld(w)
    ensures var d := AfterResume(c, i, listsLoaded);
            PhotosKept(w, d) && d.scope == c.scope && d.active == c.active && d.epoch == c.epoch
  {
  }

  lemma ResumedKept(w: World, j: Job, listsLoaded: bool)
    requires Inv(w) && Tidy(w) && Kept(w) && Waiting(w, j) && Incident(w, j.owner) && j.at.Resuming?
    ensures Kept(Effect(w, Resumed(j, listsLoaded)))
  {
    var c, i := w.controllers[j.owner], j.at.intent;
    OwnPhotos(w, j);
    ResumedEffect(w, j, listsLoaded);
    hide Effect, Inv, Tidy, Kept, AfterResume, PhotosKept, TaskKeeps, TaskOk, Grounded, Resume;
    assert c.intent.None? && TaskKeeps(w, c, Resuming(i));
    if i.command.Upload? { UploadHeld(w, j); }
    var d := AfterResume(c, i, listsLoaded);
    ResumePhotos(w, c, i, listsLoaded);
    ResumeKept(w, w, j, Segment(d, None));
  }

  // The other screens.

  lemma FreeOf(w: World, id: nat)
    requires Tidy(w) && Kept(w) && id in w.controllers && !Incident(w, id)
    ensures PhotoFree(w, id) && PlainOnly(w, id)
  {
    PlainOf(w, id);
    hide Tidy, LiveKept, Retired, PhotoFree, PlainOnly;
  }

  lemma FreePress(c: Controller, s: Step)
    requires Press(s) && !c.scope.Incidents? && c.snapshot.None?
    ensures var seg := PressSegment(c, s);
            !seg.c.scope.Incidents? && seg.c.snapshot.None? && (seg.wait.Some? ==> NoContext(seg.wait.value))
  {
  }

  lemma FreePressKept(w: World, s: Step)
    requires Tidy(w) && Kept(w) && Press(s) && s.id in w.controllers && !Incident(w, s.id)
    ensures Kept(Effect(w, s))
  {
    var c := w.controllers[s.id];
    if Effect(w, s) != w {
      PlainPressEffect(w, s);
      FreeOf(w, s.id);
      FreePress(c, s);
      hide Effect, Tidy, PressSegment, LiveKept, Retired, PlainOnly, Kept;
      var n := Effect(w, s);
      FreeGo(w, n.(controllers := w.controllers, jobs := w.jobs), s.id, PressSegment(c, s));
      assert PhotoFree(n, s.id);
      hide OthersSame;
      FreeKeeps(w, n, s.id);
    }
  }

  lemma FreeGo(w: World, m: World, id: nat, s: Segment)
    requires id in w.controllers && m.controllers == w.controllers && m.jobs == w.jobs
    ensures OthersSame(w, Go(m, id, s), id)
  {
  }

  lemma FreeResumes(w: World, m: World, j: Job, s: Segment)
    requires Inv(w) && Tidy(w) && Kept(w) && Waiting(w, j) && !Incident(w, j.owner)
    requires Gentle(w, m) && m.controllers == w.controllers && m.jobs == w.jobs
    requires !s.c.scope.Incidents? && s.c.snapshot.None? && (s.wait.Some? ==> NoContext(s.wait.value))
    ensures Kept(Resume(m, j, s))
  {
    var n := Resume(m, j, s);
    FreeOf(w, j.owner);
    GentleKeeps(w, m);
    ResumeOthers(m, m, j, s);
    assert forall k :: k in n.jobs ==> k in m.jobs || (s.wait.Some? && k == Job(j.owner, s.wait.value));
    hide Inv, Tidy, Kept, Gentle, LiveKept, PlainOnly, OthersSame;
    assert PhotoFree(n, j.owner);
    assert n.slot == m.slot && n.files == m.files && n.controllers[j.owner] == s.c;
    hide PhotoFree, Resume;
    FreeKeeps(m, n, j.owner);
  }

  lemma SaveIsGentle(w: World, j: Job, fault: Fault)
    requires Waiting(w, j) && j.at.Saving? && PlainTask(j.at) && NoContext(j.at)
    ensures Gentle(w, SaveWorld(w, j, fault))
  {
    hide Rebuilt;
  }

  lemma FreeSaved(w: World, j: Job, fault: Fault)
    requires Inv(w) && Tidy(w) && Kept(w) && Waiting(w, j) && !Incident(w, j.owner) && j.at.Saving?
    ensures Kept(SavedStep(w, j, fault))
  {
    var c := w.controllers[j.owner];
    FreeOf(w, j.owner);
    assert PlainTask(j.at) && NoContext(j.at) && c.snapshot.None?;
    hide Inv, Tidy, Kept, PhotoFree, PlainOnly, SavedStep, SaveWorld, SaveOk, Gentle, Resume, PlainTask;
    SaveParts(w, j, fault);
    SaveStorage(w, j, fault);
    SaveIsGentle(w, j, fault);
    FreeResumes(w, SaveWorld(w, j, fault), j, AfterSave(c, j.at.epoch, j.at.intent, SaveOk(w, j, fault)));
  }

  lemma FreeReplied(w: World, j: Job, reply: Reply, open: bool, key: Key)
    requires Inv(w) && Tidy(w) && Kept(w) && Waiting(w, j) && !Incident(w, j.owner) && j.at.Posting?
    ensures Kept(RepliedStep(w, j, reply, open, key))
  {
    var c, i := w.controllers[j.owner], j.at.intent;
    FreeOf(w, j.owner);
    assert PlainTask(j.at) && FollowUp(c, i, reply, open, key).None? && c.snapshot.None?;
    if ReplyFits(w, i, reply) && key !in w.log.made {
      var m := if Settles(c, j.at.epoch, i, reply) then Hear(w, i.key) else w;
      var s := AfterReply(c, j.at.epoch, i, reply, open, key);
      assert RepliedStep(w, j, reply, open, key) == Resume(m, j, s) by { hide FollowUp, AfterReply, Resume; }
      assert !s.c.scope.Incidents? && s.c.snapshot.None? && (s.wait.Some? ==> NoContext(s.wait.value));
      assert Gentle(w, m) && m.controllers == w.controllers && m.jobs == w.jobs;
      hide Inv, Tidy, Kept, PhotoFree, PlainOnly, RepliedStep, FollowUp, AfterReply, Gentle, Resume, PlainTask;
      FreeResumes(w, m, j, s);
    }
  }

  lemma FreeCleared(w: World, j: Job, fault: Fault, unlinked: bool)
    requires Inv(w) && Tidy(w) && Kept(w) && Waiting(w, j) && !Incident(w, j.owner) && j.at.Clearing?
    ensures Kept(ClearedStep(w, j, fault, unlinked))
  {
    var c, m := w.controllers[j.owner], Cleaned(w, j, fault, unlinked);
    FreeOf(w, j.owner);
    JobOf(w, j);
    assert PlainTask(j.at) && MadeOk(w, j.at.intent) && c.snapshot.None?;
    ClearedWorld(w, j, fault, unlinked);
    ClearedFiles(w, j, fault, unlinked);
    if Holds(w, j.at.intent.key) { HeldPlain(w, j.at.intent); }
    assert Gentle(w, m) by { hide Inv, Tidy, Kept, ClearedStep, ClearedController, Resume, TaskOk, MadeOk; }
    var s := Segment(ClearedController(c, j.at), None);
    assert !s.c.scope.Incidents? && s.c.snapshot.None?;
    hide Inv, Tidy, Kept, PhotoFree, PlainOnly, ClearedStep, ClearedController, Cleaned, Gentle, Resume, PlainTask, TaskOk, MadeOk;
    FreeResumes(w, m, j, s);
  }

  lemma FreeRestored(w: World, j: Job, fault: Fault)
    requires Inv(w) && Tidy(w) && Kept(w) && Waiting(w, j) && !Incident(w, j.owner) && j.at.Restoring?
    ensures Kept(RestoredStep(w, j, fault))
  {
    var c := w.controllers[j.owner];
    FreeOf(w, j.owner);
    var found := Found(w, c.scope);
    var s := if fault.NotApplied? || found.Err? then Segment(c, None) else AfterRestore(c, found.value);
    assert RestoredStep(w, j, fault) == Resume(w, j, s) by { hide Found, AfterRestore, Resume; }
    assert !s.c.scope.Incidents? && s.c.snapshot.None? && s.wait.None?;
    assert Gentle(w, w);
    hide Inv, Tidy, Kept, PhotoFree, PlainOnly, RestoredStep, Found, AfterRestore, Gentle, Resume;
    FreeResumes(w, w, j, s);
  }

  lemma LoadEffect(w: World, j: Job, load: Load)
    requires Waiting(w, j) && j.at.Loading?
    ensures Effect(w, LoadDone(j, load)) == Resume(w, j, Segment(AfterLoad(w.controllers[j.owner], j.at.epoch, load), None))
    ensures var c := w.controllers[j.owner]; var d := AfterLoad(c, j.at.epoch, load);
            d.scope == c.scope && d.snapshot == c.snapshot
  {
    hide Resume;
  }

  lemma FreeLoaded(w: World, j: Job, load: Load)
    requires Inv(w) && Tidy(w) && Kept(w) && Waiting(w, j) && !Incident(w, j.owner) && j.at.Loading?
    ensures Kept(Effect(w, LoadDone(j, load)))
  {
    FreeOf(w, j.owner);
    LoadEffect(w, j, load);
    assert Gentle(w, w);
    hide Inv, Tidy, Kept, PlainOnly, Effect, AfterLoad, Gentle, Resume;
    FreeResumes(w, w, j, Segment(AfterLoad(w.controllers[j.owner], j.at.epoch, load), None));
  }

  // Every disciplined step.

  lemma IncidentJobKept(w: World, s: Step)
    requires Inv(w) && Tidy(w) && Kept(w) && JobStep(s) && Waiting(w, s.job) && Incident(w, s.job.owner) && !Strands(w, s)
    ensures Kept(Effect(w, s))
  {
    hide Inv, Tidy, Kept, Effect, Incident, Strands, SavedStep, RepliedStep, AdvancedStep, ClearedStep, RestoredStep;
    if !Suits(s) {
      Unsuited(w, s);
    } else {
      SuitedEffect(w, s);
      match s
      case Saved(j, fault) => SavedKept(w, j, fault);
      case Replied(j, reply, open, key) => RepliedKept(w, j, reply, open, key);
      case Advanced(j, fault) => AdvancedKept(w, j, fault);
      case Cleared(j, fault, unlinked) => ClearedKept(w, j, fault, unlinked);
      case Restored(j, fault) => RestoredKept(w, j, fault);
      case Resumed(j, listsLoaded) => ResumedKept(w, j, listsLoaded);
      case LoadDone(j, load) => LoadKept(w, j, load);
    }
  }

  lemma FreeJobKept(w: World, s: Step)
    requires Inv(w) && Tidy(w) && Kept(w) && JobStep(s) && Waiting(w, s.job) && !Incident(w, s.job.owner)
    ensures Kept(Effect(w, s))
  {
    hide Inv, Tidy, Kept, Effect, Incident, SavedStep, RepliedStep, AdvancedStep, ClearedStep, RestoredStep;
    if !Suits(s) {
      Unsuited(w, s);
    } else {
      SuitedEffect(w, s);
      match s
      case Saved(j, fault) => FreeSaved(w, j, fault);
      case Replied(j, reply, open, key) => FreeReplied(w, j, reply, open, key);
      case Cleared(j, fault, unlinked) => NoChain(w, j); FreeCleared(w, j, fault, unlinked);
      case Restored(j, fault) => FreeRestored(w, j, fault);
      case LoadDone(j, load) => FreeLoaded(w, j, load);
      case Advanced(j, _) => NoChain(w, j);
      case Resumed(j, _) => NoChain(w, j);
    }
  }

  lemma PressKept(w: World, s: Step)
    requires Inv(w) && Tidy(w) && Kept(w) && Disciplined(w, s) && Press(s)
    ensures Kept(Effect(w, s))
  {
    hide Inv, Tidy, Kept;
    if Incident(w, s.id) {
      match s
      case Start(id) => StartKept(w, id);
      case Stop(id) => StopKept(w, id);
      case Refresh(_) => ScreenPhotos(w, s);
      case SetClaim(_, _) => ScreenPhotos(w, s);
      case Retry(_, _) => ScreenPhotos(w, s);
      case ChoosePhoto(_, _, _) => EditKept(w, s);
      case DropPhoto(_) => EditKept(w, s);
      case Report(_, _) => ReportPhotos(w, s);
      case Request(_, _, _) => RequestPhotos(w, s);
      case Unlock(_) =>
    } else if s.id in w.controllers {
      FreePressKept(w, s);
    }
  }

  lemma DeviceKept(w: World, s: Step)
    requires Kept(w) && (s.Issue? || s.Crash? || s.Cleanup?)
    ensures Kept(Effect(w, s))
  {
    if s.Issue? { SameStoreKept(w, Effect(w, s)); }
    hide LiveKept, Retired, PhotoFree;
  }

  lemma KeptNext(w: World, s: Step)
    requires Inv(w) && Tidy(w) && Kept(w) && Disciplined(w, s) && !Strands(w, s)
    ensures Kept(Next(w, s))
  {
    Unmarked(w, s);
    hide Inv, Tidy, Kept, Respends, Overlaps, Crosses, Flagged, Strands;
    if Press(s) {
      hide Effect;
      PressKept(w, s);
    } else if s.Mount? {
      hide Effect;
      MountKept(w, s);
    } else if s.Issue? || s.Crash? || s.Cleanup? {
      hide Effect;
      DeviceKept(w, s);
    } else if Waiting(w, s.job) {
      hide Effect;
      if Incident(w, s.job.owner) { IncidentJobKept(w, s); } else { FreeJobKept(w, s); }
    }
  }

  lemma FirstKept()
    ensures Kept(BOOT)
  {
  }

  lemma {:induction false} KeptRun(steps: seq<Step>, k: nat)
    requires k <= |steps| && forall m :: 0 <= m < k ==> DisciplinedAt(steps, m) && !StrandsAt(steps, m)
    ensures Tidy(Before(steps, k)) && Kept(Before(steps, k))
  {
    TidyRun(steps, k);
    hide Inv, Tidy, Kept, Next;
    if k == 0 {
      NothingYet(steps);
      FirstKept();
    } else {
      KeptRun(steps, k - 1);
      EveryRunKeeps(steps[..k - 1]);
      assert DisciplinedAt(steps, k - 1) && !StrandsAt(steps, k - 1);
      BeforeNext(steps, k - 1);
      KeptNext(Before(steps, k - 1), steps[k - 1]);
    }
  }

  /** The photo a save names is there, and no edit drops the photo of a stored upload. */
  lemma NothingLost(w: World, s: Step)
    requires Inv(w) && Tidy(w) && Kept(w) && Disciplined(w, s)
    ensures !EditLoses(w, s) && !(Unbacks(w, s) && !Crosses(w, s)) && !SaveLoses(w, s)
  {
    if SavesUpload(w, s) {
      SavedPhotoThere(w, s);
    }
    if (s.ChoosePhoto? || s.DropPhoto?) && EditsPhoto(w, s.id) {
      assert Incident(w, s.id) && Pressable(w, s.id);
      LiveOf(w, s.id);
      assert DraftApart(w, w.controllers[s.id]);
    }
    hide Inv, Tidy, Kept, SavesUpload, LiveKept, Ordered;
  }

  lemma SavedPhotoThere(w: World, s: Step)
    requires Inv(w) && Tidy(w) && Kept(w) && SavesUpload(w, s)
    ensures s.job.at.context.Some? ==> s.job.at.context.value.photo in w.files
  {
    OwnPhotos(w, s.job);
    hide Inv, Tidy, Kept;
  }

  /** In a disciplined run in which no refused report fails to move to its discard, the photo
      of a stored upload always exists, and every command is, when it is posted, exactly what
      a restore would rebuild. */
  lemma DisciplinedPhotos(steps: seq<Step>)
    requires DisciplinedRun(steps) && forall k :: 0 <= k < |steps| ==> !StrandsAt(steps, k)
    ensures forall k :: 0 <= k <= |steps| ==> ThereAt(steps, k)
    ensures forall k :: 0 <= k < |steps| ==> BackedAt(steps, k)
  {
    DisciplineSuffices(steps);
    forall k | 0 <= k < |steps|
      ensures !LosesAt(steps, k) && !UnbackedAt(steps, k)
    {
      KeptRun(steps, k);
      EveryRunKeeps(steps[..k]);
      assert DisciplinedAt(steps, k) && !CrossesAt(steps, k);
      assert Inv(Before(steps, k)) && Disciplined(Before(steps, k), steps[k]);
      hide Inv, Tidy, Kept, Before, Unbacks, Crosses, EditLoses, SaveLoses, Disciplined;
      NothingLost(Before(steps, k), steps[k]);
    }
    hide ThereAt, LosesAt, BackedAt, UnbackedAt, StrandsAt, PostsAt, StoredAt;
    PhotoAlwaysThere(steps);
    WriteAhead(steps);
  }
}
