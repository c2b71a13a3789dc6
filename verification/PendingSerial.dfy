/** Disciplined runs keep every promise of the incident chain. */
module PendingSerial {
  import opened Wrappers
  import opened PendingSlot
  import opened PendingController
  import opened PendingWorld
  import opened PendingInvariants
  import opened PendingPreservation
  import opened PendingHistory
  import opened PendingTheorems
  import opened PendingDiscipline

  lemma IncidentOf(w: World, id: nat)
    requires Tidy(w) && Incident(w, id)
    ensures Ordered(w, id)
    ensures w.controllers[id].active || w.controllers[id].epoch == 0 ==> OthersRetired(w, id)
  {
    hide Ordered, PlainOnly;
  }

  lemma PlainOf(w: World, id: nat)
    requires Tidy(w) && id in w.controllers && !Incident(w, id)
    ensures PlainOnly(w, id)
  {
    hide Ordered, PlainOnly;
  }

  /** History that no promise depends on. */
  lemma SteadyHistory(w: World, n: World)
    requires n.slot == w.slot && n.issued == w.issued && n.log.reported == w.log.reported
    ensures Steady(w, n)
  {
    forall key | Spent(n, key) ensures Spent(w, key) {
      var e :| e in n.issued && n.issued[e] == key && e in n.log.reported;
      assert e in w.issued;
    }
  }

  lemma FreshIsUnspent(w: World, key: Key)
    requires Inv(w) && key !in w.log.made
    ensures !Spent(w, key)
  {
    hide ControllersOk, JobsOk, SlotOk, WrittenOk, PostedOk;
  }

  lemma ReportSegment(w: World, c: Controller, key: Key)
    requires Grounded(c) && CanReport(c, true) && !Spent(w, key)
    ensures Grounded(BeginReport(c, key)) && Guarded(w, BeginReport(c, key))
  {
    hide Spent;
  }

  lemma RetrySegment(w: World, c: Controller, open: bool)
    requires Grounded(c) && Guarded(w, c)
    ensures var s := PendingController.Retry(c, open);
            && Grounded(s.c) && Guarded(w, s.c) && (s.wait.Some? ==> TaskFits(w, s.c, s.wait.value))
            && s.c.scope == c.scope && s.c.active == c.active
  {
    hide Spent, ContextOf;
  }

  lemma RefreshSegment(w: World, c: Controller)
    requires c.scope.Incidents? && Grounded(c) && Guarded(w, c)
    ensures var s := PendingController.Refresh(c);
            && Grounded(s.c) && Guarded(w, s.c) && (s.wait.Some? ==> TaskFits(w, s.c, s.wait.value))
            && s.c.scope == c.scope && s.c.active == c.active && s.c.intent == c.intent
            && (s.c.epoch == c.epoch || s.c.epoch == c.epoch + 1)
  {
    hide Spent;
  }

  /** Buttons of the live incidents controller. */
  lemma PressStep(w: World, s: Step)
    requires Inv(w) && Tidy(w)
    requires s.Refresh? || s.SetClaim? || s.Retry?
    requires Incident(w, s.id) && Pressable(w, s.id)
    ensures Tidy(Effect(w, s))
  {
    var c := w.controllers[s.id];
    IncidentOf(w, s.id);
    assert Quiet(w, s.id) && Grounded(c);
    assert Guarded(w, c);
    hide Inv, Tidy, Quiet, Ordered, OthersRetired, TaskFits;
    match s
    case Refresh(_) => RefreshSegment(w, c); hide Guarded, Grounded; PressKeeps(w, s.id, PendingController.Refresh(c));
    case SetClaim(_, claim) => PressKeeps(w, s.id, Segment(PendingController.SetClaim(c, claim), None));
    case Retry(_, open) => RetrySegment(w, c, open); hide Guarded, Grounded; PressKeeps(w, s.id, PendingController.Retry(c, open));
    case _ => assert false;
  }

  lemma PhotoPress(w: World, s: Step)
    requires Inv(w) && Tidy(w) && (s.ChoosePhoto? || s.DropPhoto?)
    requires Incident(w, s.id) && Pressable(w, s.id)
    ensures Tidy(Effect(w, s))
  {
    if s.ChoosePhoto? ==> s.uri !in w.pixels {
      var c := w.controllers[s.id];
      var photo := if s.ChoosePhoto? then Some(Photo(s.uri, Some(s.base64))) else None;
      var m := Effect(w, s).(controllers := w.controllers);
      assert Effect(w, s) == Go(m, s.id, Segment(SetPhoto(c, photo), None));
      assert m.slot == w.slot && m.log == w.log && m.issued == w.issued && m.jobs == w.jobs;
      hide Effect;
      StoragePress(w, m, s.id, Segment(SetPhoto(c, photo), None)) by {
        IncidentOf(w, s.id);
        SameStorage(w, m, c);
        SameStorage(w, m, SetPhoto(c, photo));
        hide Inv, Tidy;
      }
    }
  }

  /** A press that also moves storage or history no promise depends on. */
  lemma StoragePress(w: World, m: World, id: nat, s: Segment)
    requires Inv(w) && Tidy(w) && Incident(w, id) && Pressable(w, id)
    requires m.controllers == w.controllers && m.jobs == w.jobs && m.slot == w.slot && m.issued == w.issued
    requires m.log.reported == w.log.reported && !m.log.overlapped && !m.log.respent
    requires Grounded(s.c) && Guarded(m, s.c) && s.c.scope.Incidents? && s.c.active && s.wait.None?
    ensures Tidy(Go(m, id, s))
  {
    SteadyHistory(w, m);
    assert PlainSlot(m);
    hide Inv, Steady, Guarded, Grounded, Ordered, PlainOnly;
    StorageMoves(w, m);
    IncidentOf(m, id);
    hide Tidy;
    PressKeeps(m, id, s);
  }

  lemma CommandPress(w: World, s: Step)
    requires Inv(w) && Tidy(w) && (s.Report? || s.Request?)
    requires Incident(w, s.id) && Pressable(w, s.id)
    ensures Tidy(Effect(w, s))
  {
    var c := w.controllers[s.id];
    if s.key !in w.log.made && (if s.Report? then CanReport(c, true) else Editable(c)) {
      IncidentOf(w, s.id);
      assert Grounded(c);
      hide Tidy, Ordered;
      var after := if s.Report? then BeginReport(c, s.key) else BeginRequest(c, s.key, s.request);
      var m := Make(w, after.intent.value);
      assert Effect(w, s) == Go(m, s.id, Segment(after, None));
      assert after.scope.Incidents? && after.active == c.active;
      if s.Report? {
        FreshIsUnspent(w, s.key);
        ReportSegment(w, c, s.key);
        SameStorage(w, m, after);
      }
      assert Grounded(after) && Guarded(m, after);
      assert !m.log.overlapped && !m.log.respent && m.log.reported == w.log.reported by { assert Tidy(w); }
      hide Effect, Inv, Grounded, Guarded, CanReport, BeginReport;
      StoragePress(w, m, s.id, Segment(after, None));
    }
  }

  // Opening, starting and stopping the screen; lists.

  lemma NoJobsYet(w: World, id: nat)
    requires Inv(w) && id !in w.controllers
    ensures forall j :: j in w.jobs ==> j.owner != id
  {
    hide ControllerOk, TaskOk, SlotOk, HistoryOk;
  }

  lemma MountEffect(w: World, s: Step)
    requires Inv(w) && s.Mount? && s.id !in w.controllers
    ensures var n := Effect(w, s);
            && OthersSame(w, n, s.id) && n.controllers[s.id] == Mounted(s.scope, s.orderId) && n.jobs == w.jobs
            && n.slot == w.slot && n.files == w.files && n.issued == w.issued && n.log == w.log
            && (forall j :: j in n.jobs ==> j.owner != s.id)
  {
    NoJobsYet(w, s.id);
    hide Inv;
  }

  lemma MountStep(w: World, s: Step)
    requires Inv(w) && Tidy(w) && s.Mount? && Disciplined(w, s)
    ensures Tidy(Effect(w, s))
  {
    if s.id !in w.controllers {
      MountEffect(w, s);
      hide Inv, Effect, OthersSame;
      var n := Effect(w, s);
      if s.scope.Incidents? {
        assert OthersRetired(w, s.id) && Quiet(n, s.id) && Ordered(n, s.id);
        hide Ordered, Retired, PlainOnly, AllOrdered, OneLive;
        LiveMoves(w, n, s.id);
      } else {
        assert PlainOnly(n, s.id) && !Incident(w, s.id);
        hide Tidy, Ordered, PlainOnly;
        PlainMoves(w, n, s.id);
      }
    }
  }

  lemma StartStep(w: World, id: nat)
    requires Tidy(w) && Incident(w, id) && Disciplined(w, Step.Start(id))
    ensures Tidy(Effect(w, Step.Start(id)))
  {
    IncidentOf(w, id);
    var c := w.controllers[id];
    assert c.intent.None? && Quiet(w, id) && Grounded(c);
    hide Tidy, Quiet, Ordered, OthersRetired;
    PressKeeps(w, id, PendingController.Start(c));
  }

  /** The controller stops, or takes over what it loaded. */
  predicate Nudged(c: Controller, d: Controller) {
    && d.scope == c.scope && d.intent == c.intent && d.snapshot == c.snapshot && d.orderId == c.orderId
    && (d.orderLoaded ==> c.orderLoaded || c.orderId.Some?) && (c.orderLoaded ==> d.orderLoaded)
    && ((d.active == c.active && d.epoch == c.epoch) || (!d.active && d.epoch == c.epoch + 1))
  }

  lemma NudgeOrdered(w: World, id: nat, d: Controller)
    requires id in w.controllers && Ordered(w, id) && Nudged(w.controllers[id], d)
    ensures Ordered(Put(w, id, d), id) && (Retired(w, id) ==> Retired(Put(w, id, d), id))
  {
    var n, c := Put(w, id, d), w.controllers[id];
    SameStorage(w, n, c);
    assert Quiet(n, id) == Quiet(w, id) && Serial(n, id) == Serial(w, id);
    assert Guarded(n, d) == Guarded(n, c);
    assert Grounded(d);
    forall j | j in n.jobs && j.owner == id ensures TaskFits(n, d, j.at) {
      assert TaskFits(w, c, j.at);
    }
    hide Guarded, Grounded, Serial, Quiet;
  }

  lemma NudgeKeeps(w: World, id: nat, d: Controller)
    requires Tidy(w) && Incident(w, id) && Nudged(w.controllers[id], d)
    ensures Tidy(Put(w, id, d))
  {
    hide Ordered, PlainOnly, Retired;
    var n := Put(w, id, d);
    NudgeOrdered(w, id, d);
    forall i | i in n.controllers && i != id
      ensures if n.controllers[i].scope.Incidents? then Ordered(n, i) && (Retired(w, i) ==> Retired(n, i)) else PlainOnly(n, i)
    {
      if w.controllers[i].scope.Incidents? { OrderedStays(w, n, i); } else { PlainStays(w, n, i); }
    }
  }

  lemma StopStep(w: World, id: nat)
    requires Tidy(w) && Incident(w, id)
    ensures Tidy(Effect(w, Step.Stop(id)))
  {
    hide Tidy;
    NudgeKeeps(w, id, PendingController.Stop(w.controllers[id]));
  }

  lemma FewerOrdered(w: World, j: Job, id: nat)
    requires id in w.controllers && Ordered(w, id) && j.at.Loading?
    ensures Ordered(w.(jobs := w.jobs - multiset{j}), id)
    ensures Retired(w, id) ==> Retired(w.(jobs := w.jobs - multiset{j}), id)
  {
    var n := w.(jobs := w.jobs - multiset{j});
    SameStorage(w, n, w.controllers[id]);
    assert forall k :: k in n.jobs ==> k in w.jobs;
    assert forall k: Job :: !k.at.Loading? ==> n.jobs[k] == w.jobs[k];
    hide Grounded, Guarded, TaskFits;
  }

  lemma LoadGone(w: World, j: Job)
    requires Tidy(w) && j.at.Loading?
    ensures Tidy(w.(jobs := w.jobs - multiset{j}))
  {
    var n := w.(jobs := w.jobs - multiset{j});
    assert forall k :: k in n.jobs ==> k in w.jobs;
    forall id | id in n.controllers
      ensures if n.controllers[id].scope.Incidents? then Ordered(n, id) && (Retired(w, id) ==> Retired(n, id)) else PlainOnly(n, id)
    {
      if w.controllers[id].scope.Incidents? { hide PlainOnly, Retired, Ordered; FewerOrdered(w, j, id); }
    }
    hide Ordered, PlainOnly, Retired;
  }

  lemma LoadStep(w: World, j: Job, load: Load)
    requires Tidy(w) && Waiting(w, j) && j.at.Loading? && Incident(w, j.owner)
    ensures Tidy(Effect(w, LoadDone(j, load)))
  {
    var m := w.(jobs := w.jobs - multiset{j});
    LoadGone(w, j);
    assert Nudged(w.controllers[j.owner], AfterLoad(w.controllers[j.owner], j.at.epoch, load));
    hide Tidy, AfterLoad, Nudged;
    NudgeKeeps(m, j.owner, AfterLoad(w.controllers[j.owner], j.at.epoch, load));
  }

  // Answers the live incidents controller waited for.

  lemma OwnCommand(w: World, j: Job)
    requires Inv(w) && Tidy(w) && Waiting(w, j) && Incident(w, j.owner) && !j.at.Loading?
    ensures var c := w.controllers[j.owner];
            && TaskFits(w, c, j.at) && Grounded(c) && Guarded(w, c) && (c.active || c.epoch >= 1)
            && TaskOk(w, c.snapshot, j.at) && (c.intent.Some? ==> IntentOk(w, c.intent.value))
  {
    IncidentOf(w, j.owner);
    JobOf(w, j);
    ControllerOf(w, j.owner);
    assert !Quiet(w, j.owner);
    hide Inv, Tidy, Guarded, Grounded, TaskFits;
  }

  /** The controller goes on with the same command or without one. */
  predicate SameCommand(c: Controller, d: Controller) {
    && d.scope == c.scope && d.active == c.active && d.epoch == c.epoch
    && (d.intent.None? || (d.intent == c.intent && d.snapshot == c.snapshot
                           && (c.intent.value.command.Upload? ==> d.orderLoaded == c.orderLoaded)))
    && d.orderId == c.orderId && (d.orderLoaded ==> c.orderLoaded)
  }

  lemma SameCommandFits(w: World, c: Controller, d: Controller)
    requires Grounded(c) && Guarded(w, c) && SameCommand(c, d)
    ensures Grounded(d) && Guarded(w, d)
  {
    hide Spent;
  }

  lemma SavedStore(w: World, c: Controller, j: Job, fault: Fault)
    requires Waiting(w, j) && j.at.Saving? && c == w.controllers[j.owner] && c.scope.Incidents?
    requires c.intent == Some(j.at.intent) && Guarded(w, c) && PlainSlot(w) && ToSave(w, j).Some?
    requires j.at.intent.command.Report? ==> IntentOk(w, j.at.intent)
    ensures var m := Store(w, Save(w.slot, ToSave(w, j).value, fault).slot);
            && Guarded(m, c) && PlainSlot(m) && m.controllers == w.controllers && m.jobs == w.jobs
            && m.log.overlapped == w.log.overlapped && m.log.respent == w.log.respent
  {
    var r := ToSave(w, j).value;
    var m := Store(w, Save(w.slot, r, fault).slot);
    assert r.scope == Incidents && (r.command.Some? ==> r.command.value == j.at.intent.command);
    hide ToSave, RecordOf, Rebuilt;
    if w.slot.None? && j.at.intent.command.Upload? {
      assert r.command.None? by { UploadHasNoBody(w, j); }
      assert m.log.reported == w.log.reported && m.issued == w.issued;
      assert Spent(m, j.at.intent.key) == Spent(w, j.at.intent.key);
    }
  }

  lemma UploadHasNoBody(w: World, j: Job)
    requires Waiting(w, j) && j.at.Saving? && ToSave(w, j).Some? && j.at.intent.command.Upload?
    ensures ToSave(w, j).value.command.None?
  {
  }

  lemma SavedStepTidy(w: World, j: Job, fault: Fault)
    requires Inv(w) && Tidy(w) && Waiting(w, j) && Incident(w, j.owner) && j.at.Saving?
    ensures Tidy(SavedStep(w, j, fault))
  {
    var c, i := w.controllers[j.owner], j.at.intent;
    OwnCommand(w, j);
    var r := ToSave(w, j);
    var ok := r.Some? && Save(w.slot, r.value, fault).ok;
    var m := if r.None? then w else Store(w, Save(w.slot, r.value, fault).slot);
    var n := if ok then Post(m, i) else m;
    var s := AfterSave(c, j.at.epoch, i, ok);
    assert SavedStep(w, j, fault) == Resume(n, j, s) by { hide ToSave, Save, Store, Post, AfterSave, Resume; }
    assert Guarded(m, c) && PlainSlot(m) && m.controllers == w.controllers && m.jobs == w.jobs
           && !m.log.overlapped && !m.log.respent by {
      if r.Some? { SavedStore(w, c, j, fault); }
    }
    SameStorage(m, n, c);
    assert SameCommand(c, s.c) && (s.wait.Some? ==> s.wait == Some(Posting(j.at.epoch, i)));
    SameCommandFits(n, c, s.c);
    assert PlainSlot(n) && n.controllers == w.controllers && n.jobs == w.jobs && !n.log.overlapped && !n.log.respent;
    hide Inv, Tidy, SavedStep, Guarded, Grounded, Save, Store, Post, ToSave, AfterSave, Resume;
    StepKeeps(w, n, j, s);
  }

  lemma RepliedSegment(w: World, c: Controller, epoch: nat, i: Intent, reply: Reply, open: bool, key: Key)
    requires c.intent == Some(i)
    ensures var s := AfterReply(c, epoch, i, reply, open, key);
            SameCommand(c, s.c) && (s.wait.Some? ==> TaskFits(w, s.c, s.wait.value))
  {
    hide ContextOf;
  }

  lemma RepliedStepTidy(w: World, j: Job, reply: Reply, open: bool, key: Key)
    requires Inv(w) && Tidy(w) && Waiting(w, j) && Incident(w, j.owner) && j.at.Posting?
    ensures Tidy(RepliedStep(w, j, reply, open, key))
  {
    var c, i := w.controllers[j.owner], j.at.intent;
    OwnCommand(w, j);
    if ReplyFits(w, i, reply) && key !in w.log.made {
      var heard := if Settles(c, j.at.epoch, i, reply) then Hear(w, i.key) else w;
      var next := FollowUp(c, i, reply, open, key);
      var m := if next.Some? then Make(heard, next.value) else heard;
      var s := AfterReply(c, j.at.epoch, i, reply, open, key);
      assert RepliedStep(w, j, reply, open, key) == Resume(m, j, s) by { hide FollowUp, AfterReply, Resume; }
      RepliedSegment(m, c, j.at.epoch, i, reply, open, key);
      SameStorage(w, m, c);
      SameCommandFits(m, c, s.c);
      assert PlainSlot(m) && m.controllers == w.controllers && m.jobs == w.jobs && !m.log.overlapped && !m.log.respent;
      hide Inv, Tidy, RepliedStep, Guarded, Grounded, FollowUp, AfterReply, Resume, TaskFits;
      StepKeeps(w, m, j, s);
    }
  }

  /** Only an upload's own key finds its record. */
  lemma HeldUpload(w: World, i: Intent)
    requires Inv(w) && MadeOk(w, i) && i.command.Upload? && Holds(w, i.key)
    ensures w.slot.value.command.None?
  {
    assert SlotOk(w);
    hide ControllersOk, JobsOk, HistoryOk;
  }

  /** After a failed advance the controller keeps the prior command, and if that is now a
      reported upload, its report is in the slot. */
  lemma AdvancedStore(w: World, c: Controller, j: Job, r: Record, fault: Fault)
    requires Inv(w) && Waiting(w, j) && j.at.Advancing? && TaskOk(w, c.snapshot, j.at)
    requires c.intent == Some(j.at.prior) && Guarded(w, c) && PlainSlot(w)
    requires r.scope.Incidents? && r.key == j.at.next.key && r.command == Some(j.at.next.command)
    ensures var m := Store(w, Advance(w.slot, Holds(w, j.at.prior.key), r, fault).slot);
            && Guarded(m, c) && PlainSlot(m) && m.controllers == w.controllers && m.jobs == w.jobs
            && m.log.overlapped == w.log.overlapped && m.log.respent == w.log.respent
  {
    var m := Store(w, Advance(w.slot, Holds(w, j.at.prior.key), r, fault).slot);
    if m.slot != w.slot && j.at.prior.command.Upload? && !j.at.next.command.Report? {
      HeldUpload(w, j.at.prior);
      assert m.log.reported == w.log.reported && m.issued == w.issued;
      assert Spent(m, j.at.prior.key) == Spent(w, j.at.prior.key);
    }
    hide Inv, TaskOk;
    SteadyIfSame(w, m, c);
  }

  lemma SteadyIfSame(w: World, m: World, c: Controller)
    ensures m == w ==> Guarded(m, c) == Guarded(w, c)
  {
  }

  lemma AdvancedSegment(w: World, c: Controller, t: Task, ok: bool)
    requires t.Advancing? && c.intent == Some(t.prior) && Grounded(c) && Guarded(w, c) && !t.next.command.Upload?
    ensures var s := AfterAdvance(c, t.epoch, t.prior, t.next, t.why, ok);
            && Grounded(s.c) && Guarded(w, s.c) && s.c.scope == c.scope && s.c.active == c.active && s.c.epoch == c.epoch
            && (s.wait.Some? ==> TaskFits(w, s.c, s.wait.value))
  {
    hide Spent;
  }

  lemma AdvancedStepTidy(w: World, j: Job, fault: Fault)
    requires Inv(w) && Tidy(w) && Waiting(w, j) && Incident(w, j.owner) && j.at.Advancing?
    ensures Tidy(AdvancedStep(w, j, fault))
  {
    var c, t := w.controllers[j.owner], j.at;
    OwnCommand(w, j);
    var r := RecordOf(c.scope, t.next, t.context);
    assert r.Some? ==> r.value == Record(Incidents, t.next.key, Some(t.next.command), t.context);
    var out := if r.None? then Outcome(w.slot, false) else Advance(w.slot, Holds(w, t.prior.key), r.value, fault);
    var m := Store(w, out.slot);
    var s := AfterAdvance(c, t.epoch, t.prior, t.next, t.why, out.ok);
    assert AdvancedStep(w, j, fault) == Resume(m, j, s) by { hide RecordOf, Advance, Store, AfterAdvance, Resume; }
    assert Guarded(m, c) && PlainSlot(m) && m.controllers == w.controllers && m.jobs == w.jobs
           && !m.log.overlapped && !m.log.respent by {
      hide RecordOf, Inv, TaskOk, Guarded, Grounded, AfterAdvance, Resume;
      if r.Some? { AdvancedStore(w, c, j, r.value, fault); }
    }
    AdvancedSegment(m, c, t, out.ok);
    hide Inv, Tidy, AdvancedStep, Guarded, Grounded, Advance, Store, RecordOf, AfterAdvance, Resume, TaskFits;
    StepKeeps(w, m, j, s);
  }

  function ClearedController(c: Controller, t: Task): Controller
    requires t.Clearing? || t.Expiring?
  {
    if t.Clearing? then AfterClear(c, t.epoch, t.intent, t.settled) else AfterExpiry(c)
  }

  lemma ClearedWorld(w: World, j: Job, fault: Fault, unlinked: bool)
    requires Waiting(w, j) && (j.at.Clearing? || j.at.Expiring?)
    ensures var m := Cleaned(w, j, fault, unlinked); var c := w.controllers[j.owner];
            && ClearedStep(w, j, fault, unlinked) == Resume(m, j, Segment(ClearedController(c, j.at), None))
            && m.controllers == w.controllers && m.jobs == w.jobs && m.issued == w.issued
            && m.log.reported == w.log.reported
            && m.log.overlapped == w.log.overlapped && m.log.respent == w.log.respent
            && (m.slot == w.slot || m.slot.None?)
  {
    hide AfterClear, AfterExpiry, Resume;
  }

  lemma ClearedSegment(c: Controller, t: Task)
    requires (t.Clearing? || t.Expiring?) && c.scope.Incidents?
    ensures SameCommand(c, ClearedController(c, t))
  {
  }

  lemma ClearedStepTidy(w: World, j: Job, fault: Fault, unlinked: bool)
    requires Inv(w) && Tidy(w) && Waiting(w, j) && Incident(w, j.owner) && (j.at.Clearing? || j.at.Expiring?)
    ensures Tidy(ClearedStep(w, j, fault, unlinked))
  {
    var c := w.controllers[j.owner];
    OwnCommand(w, j);
    var m := Cleaned(w, j, fault, unlinked);
    var d := ClearedController(c, j.at);
    ClearedWorld(w, j, fault, unlinked);
    ClearedSegment(c, j.at);
    assert PlainSlot(m) && !m.log.overlapped && !m.log.respent;
    hide Inv, Tidy, ClearedStep, Guarded, Grounded, Cleaned, ClearedController, Resume, TaskOk, IntentOk;
    ClearedGuard(w, m, c, j, fault, unlinked);
    SameCommandFits(m, c, d);
    StepKeeps(w, m, j, Segment(d, None));
  }

  lemma ClearedGuard(w: World, m: World, c: Controller, j: Job, fault: Fault, unlinked: bool)
    requires Inv(w) && Waiting(w, j) && (j.at.Clearing? || j.at.Expiring?) && m == Cleaned(w, j, fault, unlinked)
    requires c.intent == Some(j.at.intent) && Guarded(w, c) && TaskOk(w, c.snapshot, j.at) && IntentOk(w, j.at.intent)
    ensures Guarded(m, c)
  {
    if m.slot == w.slot {
      SameStorage(w, m, c);
    } else if j.at.intent.command.Upload? && Spent(m, j.at.intent.key) {
      assert Spent(w, j.at.intent.key) by { SteadySpent(w, m, j.at.intent.key); }
      if Holds(w, j.at.intent.key) { HeldUpload(w, j.at.intent); }
    }
  }

  lemma SteadySpent(w: World, m: World, key: Key)
    requires m.issued == w.issued && m.log.reported == w.log.reported
    ensures Spent(m, key) == Spent(w, key)
  {
  }

  lemma FoundCommand(w: World)
    requires Inv(w) && Found(w, Incidents).Ok? && Found(w, Incidents).value.Some?
    ensures var (i, context) := Found(w, Incidents).value.value;
            i.command.Upload? ==> Holds(w, i.key) && context.Some?
  {
    assert SlotOk(w);
    hide ControllersOk, JobsOk, HistoryOk;
  }

  lemma RestoredSegment(w: World, c: Controller, found: Option<(Intent, Option<Context>)>)
    requires c.scope.Incidents? && c.intent.None? && Grounded(c) && Guarded(w, c)
    requires found.Some? && found.value.0.command.Upload? ==> Holds(w, found.value.0.key) && found.value.1.Some?
    ensures var s := AfterRestore(c, found);
            && Grounded(s.c) && Guarded(w, s.c) && (s.wait.Some? ==> TaskFits(w, s.c, s.wait.value))
            && s.c.scope == c.scope && s.c.active == c.active && s.c.epoch >= c.epoch
  {
    hide Spent;
  }

  lemma RestoredStepTidy(w: World, j: Job, fault: Fault)
    requires Inv(w) && Tidy(w) && Waiting(w, j) && Incident(w, j.owner) && j.at.Restoring?
    ensures Tidy(RestoredStep(w, j, fault))
  {
    var c := w.controllers[j.owner];
    OwnCommand(w, j);
    var found := Found(w, Incidents);
    var s := if fault.NotApplied? || found.Err? then Segment(c, None) else AfterRestore(c, found.value);
    if !fault.NotApplied? && found.Ok? {
      if found.value.Some? { FoundCommand(w); }
      RestoredSegment(w, c, found.value);
    }
    assert RestoredStep(w, j, fault) == Resume(w, j, s) by { hide Found, AfterRestore, Resume; }
    assert PlainSlot(w) && !w.log.overlapped && !w.log.respent;
    hide Inv, Tidy, RestoredStep, Guarded, Grounded, Found, AfterRestore, Resume, TaskFits;
    StepKeeps(w, w, j, s);
  }

  /** The upload in the slot has not been reported. */
  lemma StoredIsUnspent(w: World, i: Intent)
    requires Inv(w) && !w.log.respent && IntentOk(w, i) && i.command.Upload? && Holds(w, i.key)
    ensures !Spent(w, i.key)
  {
    HeldUpload(w, i);
    assert SlotOk(w);
    hide ControllersOk, JobsOk, HistoryOk, Spent;
  }

  lemma ResumedSegment(w: World, c: Controller, i: Intent, listsLoaded: bool)
    requires TaskFits(w, c, Resuming(i)) && Grounded(c) && Guarded(w, c)
    requires i.command.Upload? ==> !Spent(w, i.key)
    ensures var d := AfterResume(c, i, listsLoaded);
            Grounded(d) && Guarded(w, d) && d.scope == c.scope && d.active == c.active && d.epoch == c.epoch
  {
    hide Spent;
  }

  lemma ResumedEffect(w: World, j: Job, listsLoaded: bool)
    requires Waiting(w, j) && j.at.Resuming?
    ensures Effect(w, Resumed(j, listsLoaded)) ==
            Resume(w, j, Segment(AfterResume(w.controllers[j.owner], j.at.intent, listsLoaded), None))
  {
    hide AfterResume, Resume;
  }

  lemma ResumedStepTidy(w: World, j: Job, listsLoaded: bool)
    requires Inv(w) && Tidy(w) && Waiting(w, j) && Incident(w, j.owner) && j.at.Resuming?
    ensures Tidy(Effect(w, Resumed(j, listsLoaded)))
  {
    var c, i := w.controllers[j.owner], j.at.intent;
    OwnCommand(w, j);
    ResumedEffect(w, j, listsLoaded);
    assert PlainSlot(w) && !w.log.overlapped && !w.log.respent by { hide AllOrdered, OneLive, PlainSlot; }
    hide Effect, Inv, Tidy, Guarded, Grounded, AfterResume, Resume, IntentOk, PlainSlot;
    assert IntentOk(w, i) && TaskFits(w, c, Resuming(i));
    if i.command.Upload? { StoredIsUnspent(w, i); }
    ResumedSegment(w, c, i, listsLoaded);
    hide TaskFits, TaskOk;
    StepKeeps(w, w, j, Segment(AfterResume(c, i, listsLoaded), None));
  }

  // The other screens.

  predicate PlainSegment(s: Segment) {
    && !s.c.scope.Incidents?
    && (s.c.intent.Some? ==> s.c.intent.value.command.Plain?)
    && (s.wait.Some? ==> PlainTask(s.wait.value))
  }

  lemma PlainGoes(w: World, n: World, id: nat, s: Segment)
    requires Tidy(w) && id in w.controllers && !Incident(w, id) && PlainSegment(s)
    requires n.slot == w.slot && n.issued == w.issued && n.log == w.log
    requires n.controllers == w.controllers[id := s.c] && OthersSame(w, n, id)
    requires forall j :: j in n.jobs && j.owner == id ==> j in w.jobs || (s.wait.Some? && j.at == s.wait.value)
    ensures Tidy(n)
  {
    PlainOf(w, id);
    assert PlainOnly(n, id);
    hide Tidy, PlainOnly, OthersSame;
    PlainMoves(w, n, id);
  }

  /** A press on another screen, after storage or history no promise depends on has moved. */
  lemma PlainPress(w: World, m: World, id: nat, s: Segment)
    requires Inv(w) && Tidy(w) && id in w.controllers && !Incident(w, id) && PlainSegment(s)
    requires m.controllers == w.controllers && m.jobs == w.jobs && m.slot == w.slot && m.issued == w.issued
    requires m.log.reported == w.log.reported && !m.log.overlapped && !m.log.respent
    ensures Tidy(Go(m, id, s))
  {
    SteadyHistory(w, m);
    assert PlainSlot(m);
    var n := Go(m, id, s);
    assert OthersSame(m, n, id);
    hide Inv, Steady, Ordered, PlainOnly, OthersSame;
    StorageMoves(w, m);
    hide Tidy;
    PlainGoes(m, n, id, s);
  }

  predicate Press(s: Step) {
    || s.Start? || s.Stop? || s.Refresh? || s.Unlock? || s.SetClaim? || s.ChoosePhoto? || s.DropPhoto?
    || s.Report? || s.Request? || s.Retry?
  }

  /** The segment a press on another screen runs. */
  function PressSegment(c: Controller, s: Step): Segment
    requires Press(s)
  {
    match s
    case Start(_) => PendingController.Start(c)
    case Stop(_) => Segment(PendingController.Stop(c), None)
    case Refresh(_) => PendingController.Refresh(c)
    case Unlock(_) => Segment(if c.scope.Cart? then c.(locked := false) else c, None)
    case SetClaim(_, claim) => Segment(PendingController.SetClaim(c, claim), None)
    case Request(_, key, request) => if Editable(c) then Segment(BeginRequest(c, key, request), None) else Segment(c, None)
    case Retry(_, open) => PendingController.Retry(c, open)
    case _ => Segment(c, None)
  }

  lemma PressIsPlain(c: Controller, s: Step)
    requires Press(s) && !c.scope.Incidents? && (c.intent.Some? ==> c.intent.value.command.Plain?)
    ensures PlainSegment(PressSegment(c, s))
  {
    hide ContextOf;
  }

  lemma PlainPressEffect(w: World, s: Step)
    requires Press(s) && s.id in w.controllers && !Incident(w, s.id) && Effect(w, s) != w
    ensures var m := Effect(w, s).(controllers := w.controllers, jobs := w.jobs);
            && Effect(w, s) == Go(m, s.id, PressSegment(w.controllers[s.id], s))
            && m.slot == w.slot && m.files == w.files && m.issued == w.issued && m.log.reported == w.log.reported
            && m.log.overlapped == w.log.overlapped && m.log.respent == w.log.respent
  {
    hide Dropped, SetPhoto, ContextOf;
  }

  lemma PlainPressStep(w: World, s: Step)
    requires Inv(w) && Tidy(w) && Press(s) && s.id in w.controllers && !Incident(w, s.id)
    ensures Tidy(Effect(w, s))
  {
    var c := w.controllers[s.id];
    assert !w.log.overlapped && !w.log.respent;
    if Effect(w, s) != w {
      PlainPressEffect(w, s);
      PlainOf(w, s.id);
      PressIsPlain(c, s);
      hide Effect, Inv, Tidy, PressSegment, PlainSegment;
      var m := Effect(w, s).(controllers := w.controllers, jobs := w.jobs);
      PlainPress(w, m, s.id, PressSegment(c, s));
    }
  }

  /** A method of another screen goes on, after storage moved. */
  lemma PlainResumes(w: World, m: World, j: Job, s: Segment)
    requires Inv(w) && Tidy(w) && Waiting(w, j) && !Incident(w, j.owner) && PlainSegment(s)
    requires Steady(w, m) && m.controllers == w.controllers && m.jobs == w.jobs
    requires !m.log.overlapped && !m.log.respent && PlainSlot(m)
    ensures Tidy(Resume(m, j, s))
  {
    var n := Resume(m, j, s);
    ResumeOthers(m, m, j, s);
    assert forall k :: k in n.jobs ==> k in m.jobs || (s.wait.Some? && k == Job(j.owner, s.wait.value));
    assert n.slot == m.slot && n.issued == m.issued && n.log == m.log && n.controllers == m.controllers[j.owner := s.c];
    hide Inv, Steady, OthersSame, PlainSegment, Resume;
    StorageMoves(w, m);
    hide Tidy;
    PlainGoes(m, n, j.owner, s);
  }

  lemma PlainSaveSteady(w: World, j: Job, fault: Fault)
    requires Waiting(w, j) && j.at.Saving? && ToSave(w, j).Some? && j.at.intent.command.Plain? && PlainSlot(w)
    ensures var m := Store(w, Save(w.slot, ToSave(w, j).value, fault).slot);
            && Steady(w, m) && PlainSlot(m) && m.controllers == w.controllers && m.jobs == w.jobs
            && m.log.overlapped == w.log.overlapped && m.log.respent == w.log.respent
  {
    var m := Store(w, Save(w.slot, ToSave(w, j).value, fault).slot);
    assert m.issued == w.issued && m.log.reported == w.log.reported;
    forall key | Spent(m, key) ensures Spent(w, key) { SteadySpent(w, m, key); }
    hide Spent, Rebuilt;
  }

  lemma PlainSavedStep(w: World, j: Job, fault: Fault)
    requires Inv(w) && Tidy(w) && Waiting(w, j) && !Incident(w, j.owner) && j.at.Saving?
    ensures Tidy(SavedStep(w, j, fault))
  {
    var c, i := w.controllers[j.owner], j.at.intent;
    PlainOf(w, j.owner);
    assert PlainTask(j.at);
    var r := ToSave(w, j);
    var ok := r.Some? && Save(w.slot, r.value, fault).ok;
    var m := if r.None? then w else Store(w, Save(w.slot, r.value, fault).slot);
    var n := if ok then Post(m, i) else m;
    var s := AfterSave(c, j.at.epoch, i, ok);
    assert SavedStep(w, j, fault) == Resume(n, j, s) by { hide ToSave, Save, Store, Post, AfterSave, Resume; }
    assert PlainSlot(w) && !w.log.overlapped && !w.log.respent;
    if r.Some? { PlainSaveSteady(w, j, fault); } else { SteadyHistory(w, w); }
    SteadyHistory(m, n);
    assert Steady(w, n);
    assert PlainSegment(s) && PlainSlot(n) && n.controllers == w.controllers && n.jobs == w.jobs
           && !n.log.overlapped && !n.log.respent;
    hide Inv, Tidy, SavedStep, Save, Store, Post, ToSave, AfterSave, Resume, Steady;
    PlainResumes(w, n, j, s);
  }

  lemma PlainRepliedStep(w: World, j: Job, reply: Reply, open: bool, key: Key)
    requires Inv(w) && Tidy(w) && Waiting(w, j) && !Incident(w, j.owner) && j.at.Posting?
    ensures Tidy(RepliedStep(w, j, reply, open, key))
  {
    var c, i := w.controllers[j.owner], j.at.intent;
    PlainOf(w, j.owner);
    assert PlainTask(j.at) && FollowUp(c, i, reply, open, key).None?;
    if ReplyFits(w, i, reply) && key !in w.log.made {
      var m := if Settles(c, j.at.epoch, i, reply) then Hear(w, i.key) else w;
      var s := AfterReply(c, j.at.epoch, i, reply, open, key);
      assert RepliedStep(w, j, reply, open, key) == Resume(m, j, s) by { hide FollowUp, AfterReply, Resume; }
      SteadyHistory(w, m);
      assert PlainSegment(s) && PlainSlot(m) && m.controllers == w.controllers && m.jobs == w.jobs
             && !m.log.overlapped && !m.log.respent;
      hide Inv, Tidy, RepliedStep, FollowUp, AfterReply, Resume, Steady;
      PlainResumes(w, m, j, s);
    }
  }

  /** Only a plain command's own key finds its record. */
  lemma HeldPlain(w: World, i: Intent)
    requires Inv(w) && MadeOk(w, i) && i.command.Plain? && Holds(w, i.key)
    ensures w.slot.value.command.Some? && w.slot.value.command.value.Plain?
  {
    assert SlotOk(w);
    hide ControllersOk, JobsOk, HistoryOk;
  }

  lemma PlainClearedStep(w: World, j: Job, fault: Fault, unlinked: bool)
    requires Inv(w) && Tidy(w) && Waiting(w, j) && !Incident(w, j.owner) && j.at.Clearing?
    ensures Tidy(ClearedStep(w, j, fault, unlinked))
  {
    var c, i := w.controllers[j.owner], j.at.intent;
    PlainOf(w, j.owner);
    JobOf(w, j);
    assert PlainTask(j.at) && MadeOk(w, i);
    var m := Cleaned(w, j, fault, unlinked);
    var s := Segment(ClearedController(c, j.at), None);
    ClearedWorld(w, j, fault, unlinked);
    assert PlainSegment(s) && PlainSlot(m) && !m.log.overlapped && !m.log.respent;
    assert Steady(w, m) by {
      if Holds(w, i.key) { HeldPlain(w, i); }
      hide Inv, Tidy, ClearedStep, ClearedController;
      forall key | Spent(m, key) ensures Spent(w, key) { SteadySpent(w, m, key); }
    }
    hide Inv, Tidy, ClearedStep, Cleaned, ClearedController, Resume, Steady, TaskOk;
    PlainResumes(w, m, j, s);
  }

  lemma PlainRestoredStep(w: World, j: Job, fault: Fault)
    requires Inv(w) && Tidy(w) && Waiting(w, j) && !Incident(w, j.owner) && j.at.Restoring?
    ensures Tidy(RestoredStep(w, j, fault))
  {
    var c := w.controllers[j.owner];
    PlainOf(w, j.owner);
    var found := Found(w, c.scope);
    var s := if fault.NotApplied? || found.Err? then Segment(c, None) else AfterRestore(c, found.value);
    assert RestoredStep(w, j, fault) == Resume(w, j, s) by { hide Found, AfterRestore, Resume; }
    SteadyHistory(w, w);
    assert PlainSegment(s) && PlainSlot(w) && !w.log.overlapped && !w.log.respent;
    hide Inv, Tidy, RestoredStep, Found, AfterRestore, Resume, Steady;
    PlainResumes(w, w, j, s);
  }

  lemma LoadIsPlain(c: Controller, epoch: nat, load: Load)
    requires !c.scope.Incidents? && (c.intent.Some? ==> c.intent.value.command.Plain?)
    ensures PlainSegment(Segment(AfterLoad(c, epoch, load), None))
  {
  }

  lemma PlainLoadStep(w: World, j: Job, load: Load)
    requires Inv(w) && Tidy(w) && Waiting(w, j) && !Incident(w, j.owner) && j.at.Loading?
    ensures Tidy(Effect(w, LoadDone(j, load)))
  {
    var s := Segment(AfterLoad(w.controllers[j.owner], j.at.epoch, load), None);
    assert Effect(w, LoadDone(j, load)) == Resume(w, j, s) by { hide AfterLoad, Resume; }
    PlainOf(w, j.owner);
    LoadIsPlain(w.controllers[j.owner], j.at.epoch, load);
    SteadyHistory(w, w);
    assert PlainSlot(w) && !w.log.overlapped && !w.log.respent by { hide AllOrdered, OneLive; }
    hide Inv, Tidy, Effect, AfterLoad, Resume, Steady, PlainSegment, PlainSlot;
    PlainResumes(w, w, j, s);
  }

  // The server and the device.

  lemma DeviceStep(w: World, s: Step)
    requires Inv(w) && Tidy(w) && (s.Issue? || s.Crash? || s.Cleanup?)
    ensures Tidy(Effect(w, s))
  {
    var n := Effect(w, s);
    if s.Issue? {
      forall key | Spent(n, key) ensures Spent(w, key) { IssueSpends(w, s, key); }
      hide Inv;
      assert Steady(w, n);
      hide Steady;
      StorageMoves(w, n);
    } else if s.Cleanup? {
      SteadyHistory(w, n);
      assert PlainSlot(n);
      hide Inv, Steady;
      StorageMoves(w, n);
    }
  }

  lemma IssueSpends(w: World, s: Step, key: Key)
    requires Inv(w) && s.Issue? && Spent(Effect(w, s), key)
    ensures Spent(w, key)
  {
    hide ControllersOk, JobsOk, SlotOk, WrittenOk, PostedOk;
    var n := Effect(w, s);
    var e :| e in n.issued && n.issued[e] == key && e in n.log.reported;
    assert e in w.issued && w.issued[e] == key;
  }

  // Every disciplined step.

  /** Reported uploads are never saved again. */
  lemma NeverRespends(w: World, s: Step)
    requires Inv(w) && Tidy(w)
    ensures !Respends(w, s)
  {
    if Respends(w, s) {
      var j := s.job;
      if Incident(w, j.owner) {
        OwnCommand(w, j);
      } else {
        PlainOf(w, j.owner);
      }
      hide Inv, Tidy, Spent;
      assert false;
    }
  }

  /** Nothing is resumed while the controller holds or resumes another upload. */
  lemma NeverOverlaps(w: World, s: Step)
    requires Inv(w) && Tidy(w) && Disciplined(w, s)
    ensures !Overlaps(w, s)
  {
    if s.Report? && Reports(w, s.id, s.key) {
      assert Incident(w, s.id) && Quiet(w, s.id);
    } else if s.Restored? && Resumes(w, s.job, s.fault) {
      OwnCommand(w, s.job);
      LiveByJob(w, s.job);
    }
    hide Inv, Tidy;
  }

  /** No mark is set by a disciplined step. */
  lemma Unmarked(w: World, s: Step)
    requires Inv(w) && Tidy(w) && Disciplined(w, s)
    ensures !Respends(w, s) && !Overlaps(w, s) && !Crosses(w, s) && Flagged(w, s) == w
  {
    NeverRespends(w, s);
    NeverOverlaps(w, s);
    if Crosses(w, s) { CrossedByOverlap(w, s); }
    hide Respends, Overlaps, Crosses, Inv;
  }

  predicate JobStep(s: Step) {
    s.Saved? || s.Replied? || s.Advanced? || s.Cleared? || s.Restored? || s.Resumed? || s.LoadDone?
  }

  /** A job's step does nothing to a method that waits for something else. */
  predicate Suits(s: Step)
    requires JobStep(s)
  {
    match s
    case Saved(j, _) => j.at.Saving?
    case Replied(j, _, _, _) => j.at.Posting?
    case Advanced(j, _) => j.at.Advancing?
    case Cleared(j, _, _) => j.at.Clearing? || j.at.Expiring?
    case Restored(j, _) => j.at.Restoring?
    case Resumed(j, _) => j.at.Resuming?
    case LoadDone(j, _) => j.at.Loading?
  }

  lemma Unsuited(w: World, s: Step)
    requires JobStep(s) && !Suits(s)
    ensures Effect(w, s) == w
  {
    hide SavedStep, RepliedStep, AdvancedStep, ClearedStep, RestoredStep, Resume;
  }

  /** The step of a waiting method is the function named after it. */
  lemma SuitedEffect(w: World, s: Step)
    requires JobStep(s) && Waiting(w, s.job) && Suits(s)
    ensures match s
            case Saved(j, fault) => Effect(w, s) == SavedStep(w, j, fault)
            case Replied(j, reply, open, key) => Effect(w, s) == RepliedStep(w, j, reply, open, key)
            case Advanced(j, fault) => Effect(w, s) == AdvancedStep(w, j, fault)
            case Cleared(j, fault, unlinked) => Effect(w, s) == ClearedStep(w, j, fault, unlinked)
            case Restored(j, fault) => Effect(w, s) == RestoredStep(w, j, fault)
            case _ => true
  {
    hide SavedStep, RepliedStep, AdvancedStep, ClearedStep, RestoredStep, Resume;
  }

  lemma IncidentJobTidy(w: World, s: Step)
    requires Inv(w) && Tidy(w) && JobStep(s) && Waiting(w, s.job) && Incident(w, s.job.owner)
    ensures Tidy(Effect(w, s))
  {
    hide Inv, Tidy, Effect, Incident, SavedStep, RepliedStep, AdvancedStep, ClearedStep, RestoredStep;
    if !Suits(s) {
      Unsuited(w, s);
    } else {
      SuitedEffect(w, s);
      match s
      case Saved(j, fault) => SavedStepTidy(w, j, fault);
      case Replied(j, reply, open, key) => RepliedStepTidy(w, j, reply, open, key);
      case Advanced(j, fault) => AdvancedStepTidy(w, j, fault);
      case Cleared(j, fault, unlinked) => ClearedStepTidy(w, j, fault, unlinked);
      case Restored(j, fault) => RestoredStepTidy(w, j, fault);
      case Resumed(j, listsLoaded) => ResumedStepTidy(w, j, listsLoaded);
      case LoadDone(j, load) => LoadStep(w, j, load);
    }
  }

  lemma NoChain(w: World, j: Job)
    requires Tidy(w) && Waiting(w, j) && !Incident(w, j.owner)
    ensures !j.at.Advancing? && !j.at.Expiring? && !j.at.Resuming?
  {
    PlainOf(w, j.owner);
    assert PlainTask(j.at);
    hide Tidy;
  }

  lemma PlainJobTidy(w: World, s: Step)
    requires Inv(w) && Tidy(w) && JobStep(s) && Waiting(w, s.job) && !Incident(w, s.job.owner)
    ensures Tidy(Effect(w, s))
  {
    hide Inv, Tidy, Effect, Incident, SavedStep, RepliedStep, AdvancedStep, ClearedStep, RestoredStep;
    if !Suits(s) {
      Unsuited(w, s);
    } else {
      SuitedEffect(w, s);
      match s
      case Saved(j, fault) => PlainSavedStep(w, j, fault);
      case Replied(j, reply, open, key) => PlainRepliedStep(w, j, reply, open, key);
      case Cleared(j, fault, unlinked) => NoChain(w, j); PlainClearedStep(w, j, fault, unlinked);
      case Restored(j, fault) => PlainRestoredStep(w, j, fault);
      case LoadDone(j, load) => PlainLoadStep(w, j, load);
      case Advanced(j, _) => NoChain(w, j);
      case Resumed(j, _) => NoChain(w, j);
    }
  }

  lemma PressTidy(w: World, s: Step)
    requires Inv(w) && Tidy(w) && Disciplined(w, s) && Press(s)
    ensures Tidy(Effect(w, s))
  {
    hide Inv, Tidy;
    if Incident(w, s.id) {
      match s
      case Start(id) => StartStep(w, id);
      case Stop(id) => StopStep(w, id);
      case Refresh(_) => PressStep(w, s);
      case SetClaim(_, _) => PressStep(w, s);
      case Retry(_, _) => PressStep(w, s);
      case ChoosePhoto(_, _, _) => PhotoPress(w, s);
      case DropPhoto(_) => PhotoPress(w, s);
      case Report(_, _) => CommandPress(w, s);
      case Request(_, _, _) => CommandPress(w, s);
      case Unlock(_) =>
    } else if s.id in w.controllers {
      PlainPressStep(w, s);
    }
  }

  lemma TidyNext(w: World, s: Step)
    requires Inv(w) && Tidy(w) && Disciplined(w, s)
    ensures Tidy(Next(w, s))
  {
    Unmarked(w, s);
    hide Inv, Tidy, Respends, Overlaps, Crosses, Flagged;
    if Press(s) {
      hide Effect;
      PressTidy(w, s);
    } else if s.Mount? {
      hide Effect;
      MountStep(w, s);
    } else if s.Issue? || s.Crash? || s.Cleanup? {
      hide Effect;
      DeviceStep(w, s);
    } else if Waiting(w, s.job) {
      hide Effect;
      if Incident(w, s.job.owner) { IncidentJobTidy(w, s); } else { PlainJobTidy(w, s); }
    }
  }

  lemma {:induction false} TidyRun(steps: seq<Step>, k: nat)
    requires k <= |steps| && forall m :: 0 <= m < k ==> DisciplinedAt(steps, m)
    ensures Tidy(Before(steps, k))
  {
    hide Inv, Tidy, Next;
    if k == 0 {
      NothingYet(steps);
      assert Tidy(BOOT) by { FirstTidy(); }
    } else {
      TidyRun(steps, k - 1);
      EveryRunKeeps(steps[..k - 1]);
      assert DisciplinedAt(steps, k - 1);
      BeforeNext(steps, k - 1);
      TidyNext(Before(steps, k - 1), steps[k - 1]);
    }
  }

  lemma FirstTidy()
    ensures Tidy(BOOT)
  {
  }

  /** In a disciplined run no save respends an upload or stores another picture, and no resume
      overlaps an upload, whatever storage, the network, the server and crashes do. */
  lemma DisciplineSuffices(steps: seq<Step>)
    requires DisciplinedRun(steps)
    ensures forall k :: 0 <= k < |steps| ==> !RespendsAt(steps, k) && !OverlapsAt(steps, k) && !CrossesAt(steps, k)
  {
    forall k | 0 <= k < |steps|
      ensures !RespendsAt(steps, k) && !OverlapsAt(steps, k) && !CrossesAt(steps, k)
    {
      TidyRun(steps, k);
      EveryRunKeeps(steps[..k]);
      assert DisciplinedAt(steps, k);
      hide Inv, Tidy, Before, Respends, Overlaps, Crosses, Disciplined;
      assert Tidy(Before(steps, k)) && Inv(Before(steps, k)) && Disciplined(Before(steps, k), steps[k]);
      Unmarked(Before(steps, k), steps[k]);
    }
  }

  /** At most one report per upload, and one path and body per key, across all crashes. */
  lemma DisciplinedPromises(steps: seq<Step>)
    requires DisciplinedRun(steps)
    ensures var w := Run(BOOT, steps);
            && (forall upload, i, j :: PostedReport(w, i, upload) && PostedReport(w, j, upload) ==> i == j)
            && (forall i, j :: i in w.log.posted && j in w.log.posted && i.key == j.key ==> i == j)
  {
    DisciplineSuffices(steps);
    OneReportPerUpload(steps);
    OneBodyPerKey(steps);
    hide Run, RespendsAt, OverlapsAt, CrossesAt, PostedReport;
  }
}
