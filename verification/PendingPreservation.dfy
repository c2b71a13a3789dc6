/** Every step keeps the invariant, and so does every run. */
module PendingPreservation {
  import opened Wrappers
  import opened PendingSlot
  import opened PendingController
  import opened PendingWorld
  import opened PendingInvariants

  lemma ControllerOf(w: World, id: nat)
    requires Inv(w) && id in w.controllers
    ensures ControllerOk(w, w.controllers[id]) && SnapshotSuits(w, id, w.controllers[id].snapshot)
    ensures SnapshotSuits(w, id, None)
  {
    hide IntentOk, PhotoOk, SlotOk, HistoryOk;
    forall j | j in w.jobs && j.owner == id && j.at.Resuming?
      ensures Matches(w, w.controllers[id].snapshot, j.at.intent)
    {
      assert TaskOk(w, w.controllers[j.owner].snapshot, j.at);
    }
  }

  /** Nothing new was written or posted, and the slot is as it was. */
  lemma SameWrites(w: World, n: World)
    requires WrittenOk(w) && PostedOk(w) && Grows(w, n) && n.slot == w.slot
    requires n.log.written == w.log.written
    requires n.log.posted == w.log.posted && n.log.abandoned == w.log.abandoned
    ensures WrittenOk(n) && PostedOk(n)
  {
    hide IntentOk;
    forall k | k in n.log.written ensures k in n.log.made && Held(n, k) { assert k in w.log.made && Held(w, k); }
    forall i | i in n.log.posted ensures IntentOk(n, i) { IntentGrows(w, n, i); }
  }

  predicate LocalStep(s: Step) {
    s.Mount? || s.Start? || s.Stop? || s.Refresh? || s.Unlock? || s.SetClaim? || s.Retry? || s.LoadDone?
  }

  /** Steps that touch nothing but one controller. */
  lemma LocalStepKeeps(w: World, s: Step)
    requires Inv(w) && LocalStep(s)
    ensures Inv(Effect(w, s))
  {
    if s.Mount? {
      MountKeeps(w, s);
    } else if s.LoadDone? {
      LoadKeeps(w, s);
    } else if s.id in w.controllers {
      UserStepKeeps(w, s);
    }
  }

  lemma MountKeeps(w: World, s: Step)
    requires Inv(w) && s.Mount?
    ensures Inv(Effect(w, s))
  {
    hide IntentOk, HistoryOk, SlotOk, TaskOk;
    if s.id !in w.controllers {
      assert SnapshotSuits(w, s.id, None);
      GoKeeps(w, s.id, Segment(Mounted(s.scope, s.orderId), None));
    }
  }

  lemma LoadKeeps(w: World, s: Step)
    requires Inv(w) && s.LoadDone?
    ensures Inv(Effect(w, s))
  {
    hide Inv, IntentOk, Matches;
    if Waiting(w, s.job) && s.job.at.Loading? {
      ControllerOf(w, s.job.owner);
      ResumeKeeps(w, s.job, Segment(AfterLoad(w.controllers[s.job.owner], s.job.at.epoch, s.load), None));
    }
  }

  lemma UserStepKeeps(w: World, s: Step)
    requires Inv(w) && LocalStep(s) && !s.Mount? && !s.LoadDone? && s.id in w.controllers
    ensures Inv(Effect(w, s))
  {
    hide Inv, IntentOk, Matches;
    var c := w.controllers[s.id];
    ControllerOf(w, s.id);
    match s
    case Start(_) => GoKeeps(w, s.id, PendingController.Start(c));
    case Stop(_) => GoKeeps(w, s.id, Segment(PendingController.Stop(c), None));
    case Refresh(_) => GoKeeps(w, s.id, PendingController.Refresh(c));
    case Unlock(_) => if c.scope.Cart? { GoKeeps(w, s.id, Segment(c.(locked := false), None)); }
    case SetClaim(_, claim) => GoKeeps(w, s.id, Segment(PendingController.SetClaim(c, claim), None));
    case Retry(_, open) => RetryTask(w, c, open); GoKeeps(w, s.id, PendingController.Retry(c, open));
    case _ => assert false;
  }

  lemma RetryTask(w: World, c: Controller, open: bool)
    requires ControllerOk(w, c)
    ensures ControllerOk(w, PendingController.Retry(c, open).c)
    ensures PendingController.Retry(c, open).c.snapshot == c.snapshot
    ensures var t := PendingController.Retry(c, open).wait; t.Some? ==> TaskOk(w, c.snapshot, t.value)
  {
  }

  lemma PhotoStepKeeps(w: World, s: Step)
    requires Inv(w) && (s.ChoosePhoto? || s.DropPhoto?)
    ensures Inv(Effect(w, s))
  {
    hide IntentOk, HistoryOk, SlotOk, TaskOk, Matches;
    if EditsPhoto(w, s.id) && (s.ChoosePhoto? ==> s.uri !in w.pixels) {
      var c := w.controllers[s.id];
      var photo := if s.ChoosePhoto? then Some(Photo(s.uri, Some(s.base64))) else None;
      var m := Effect(w, s).(controllers := w.controllers);
      assert Grows(w, m);
      FilesDoNotMatter(w, m);
      StorageKeeps(w, m);
      ControllerOf(m, s.id);
      GoKeeps(m, s.id, Segment(SetPhoto(c, photo), None));
      assert Effect(w, s) == Go(m, s.id, Segment(SetPhoto(c, photo), None));
    }
  }

  /** Neither which photo files exist nor new pictures matter to the slot and the history. */
  lemma FilesDoNotMatter(w: World, n: World)
    requires SlotOk(w) && HistoryOk(w) && Grows(w, n) && n.slot == w.slot && n.log == w.log && n.issued == w.issued
    ensures SlotOk(n) && HistoryOk(n)
  {
  }

  lemma CommandStepKeeps(w: World, s: Step)
    requires Inv(w) && (s.Report? || s.Request?) && (Overlaps(w, s) ==> w.log.overlapped)
    ensures Inv(Effect(w, s))
  {
    hide SlotOk, HistoryOk, TaskOk;
    if s.id in w.controllers && s.key !in w.log.made
       && (if s.Report? then CanReport(w.controllers[s.id], true) else Editable(w.controllers[s.id])) {
      var c := if s.Report? then BeginReport(w.controllers[s.id], s.key) else BeginRequest(w.controllers[s.id], s.key, s.request);
      MakeKeeps(w, c.intent.value);
      var m := Make(w, c.intent.value);
      ControllerOf(m, s.id);
      if s.Report? {
        forall j | j in m.jobs && j.owner == s.id && j.at.Resuming?
          ensures Matches(m, c.snapshot, j.at.intent)
        {
          assert TaskOk(w, w.controllers[s.id].snapshot, j.at);
          ResumingIsMade(w, w.controllers[s.id].snapshot, j.at);
        }
      }
      GoKeeps(m, s.id, Segment(c, None));
    }
  }

  lemma ResumingIsMade(w: World, snapshot: Option<Draft>, t: Task)
    requires TaskOk(w, snapshot, t) && t.Resuming?
    ensures t.intent.key in w.log.made
  {
  }

  predicate FreshCommand(w: World, i: Intent) {
    && i.key !in w.log.made
    && (i.command.Report? || i.command.Discard? ==> i.command.evidence in w.issued)
  }

  lemma MakeKeeps(w: World, i: Intent)
    requires Inv(w) && FreshCommand(w, i)
    ensures Inv(Make(w, i)) && Grows(w, Make(w, i))
  {
    hide ControllerOk, TaskOk;
    var n := Make(w, i);
    assert Grows(w, n);
    SameWrites(w, n);
    StorageKeeps(w, n);
  }

  /** A new record may go into the slot when it is empty or its command has been answered. */
  predicate Writable(w: World, r: Record) {
    && r.key in w.log.made && ContextOk(w, r.context) && MadeOk(w, Rebuilt(w, r))
    && (w.slot.Some? ==> w.slot.value.key in w.log.resolved)
    && (r.command.None? ==> r.context.Some? && r.scope.Incidents? && (!w.log.respent ==> !Spent(w, r.key)))
    && (r.command.Some? ==> !r.command.value.Upload? && (r.command.value.Plain? || r.scope.Incidents?))
    && (r.command.Some? && r.command.value.Report? ==>
        && r.command.value.evidence in w.issued
        && (!w.log.respent && r.command.value.evidence in w.log.reported ==>
            w.log.reported[r.command.value.evidence] == r.key))
  }

  lemma WriteGrows(w: World, r: Record)
    requires Writable(w, r)
    ensures var n := Write(w, r);
            Grows(w, n) && Rebuilt(n, r) == Rebuilt(w, r) && IntentOk(n, Rebuilt(w, r))
  {
    hide Spent;
  }

  lemma WriteSlot(w: World, r: Record)
    requires Inv(w) && Writable(w, r)
    ensures SlotOk(Write(w, r)) && EvidenceOk(Write(w, r))
  {
    hide ControllersOk, JobsOk, SlotOk, WrittenOk, PostedOk, ResolvedOk;
    var n := Write(w, r);
    if r.command.None? {
      assert n.log.reported == w.log.reported && n.issued == w.issued;
      assert Spent(n, r.key) == Spent(w, r.key);
    }
    assert SlotOk(n) by { WriteGrows(w, r); SlotNow(w, r); }
  }

  lemma SlotNow(w: World, r: Record)
    requires Writable(w, r) && Rebuilt(Write(w, r), r) == Rebuilt(w, r)
    requires r.command.None? && !w.log.respent ==> !Spent(Write(w, r), r.key)
    requires IntentOk(Write(w, r), Rebuilt(w, r))
    ensures SlotOk(Write(w, r))
  {
    hide MadeOk, Spent;
  }

  lemma WriteHistory(w: World, r: Record)
    requires Inv(w) && Writable(w, r)
    ensures WrittenOk(Write(w, r)) && PostedOk(Write(w, r)) && ResolvedOk(Write(w, r)) && MarksOk(Write(w, r))
  {
    hide ControllersOk, JobsOk, SlotOk, EvidenceOk;
    var n := Write(w, r);
    WriteGrows(w, r);
    hide IntentOk, Grows;
    forall k | k in n.log.written ensures k in n.log.made && Held(n, k) {
      if k != r.key { assert k in w.log.made && Held(w, k); }
    }
    forall i | i in n.log.posted ensures IntentOk(n, i) && i.key in n.log.written { IntentGrows(w, n, i); }
  }

  lemma WriteKeeps(w: World, r: Record)
    requires Inv(w) && Writable(w, r)
    ensures Inv(Write(w, r)) && Grows(w, Write(w, r))
  {
    WriteGrows(w, r);
    WriteSlot(w, r);
    WriteHistory(w, r);
    hide Inv, SlotOk, WrittenOk, PostedOk, EvidenceOk, ResolvedOk, MarksOk, Writable, Grows;
    StorageKeeps(w, Write(w, r));
  }

  lemma JobOf(w: World, j: Job)
    requires Inv(w) && Waiting(w, j)
    ensures TaskOk(w, w.controllers[j.owner].snapshot, j.at)
  {
  }

  /** A post follows a save of the same command that storage accepted. */
  lemma PostKeeps(w: World, i: Intent)
    requires Inv(w) && IntentOk(w, i) && i.key in w.log.written
    ensures Inv(Post(w, i)) && Grows(w, Post(w, i))
  {
    PostedSlot(w, i);
    PostedHistory(w, i);
    hide Inv, SlotOk, WrittenOk, PostedOk, EvidenceOk, ResolvedOk, MarksOk;
    assert Grows(w, Post(w, i));
    StorageKeeps(w, Post(w, i));
  }

  lemma PostedSlot(w: World, i: Intent)
    requires Inv(w)
    ensures SlotOk(Post(w, i)) && EvidenceOk(Post(w, i)) && MarksOk(Post(w, i))
  {
    hide ControllersOk, JobsOk, WrittenOk, PostedOk, ResolvedOk;
  }

  lemma PostedHistory(w: World, i: Intent)
    requires Inv(w) && IntentOk(w, i) && i.key in w.log.written
    ensures WrittenOk(Post(w, i)) && PostedOk(Post(w, i)) && ResolvedOk(Post(w, i))
  {
    hide ControllersOk, JobsOk, SlotOk, EvidenceOk;
    var n := Post(w, i);
    assert Grows(w, n);
    hide IntentOk, Grows;
    forall k | k in n.log.written ensures k in n.log.made && Held(n, k) { assert k in w.log.made && Held(w, k); }
    forall j | j in n.log.posted ensures IntentOk(n, j) { IntentGrows(w, n, if j in w.log.posted then j else i); }
    forall k | k in n.log.resolved ensures exists j :: j in n.log.posted && j.key == k {
      var j :| j in w.log.posted && j.key == k;
      assert j in n.log.posted;
    }
  }

  lemma FinishOk(w: World, c: Controller, epoch: nat)
    requires ControllerOk(w, c)
    ensures ControllerOk(w, Finish(c, epoch))
  {
  }

  /** The record a save would store names the upload's own picture, or the save is marked. */
  predicate Uncrossed(w: World, i: Intent, context: Option<Context>) {
    i.command.Upload? && context.Some? && !w.log.crossed ==> Picture(w, context.value.photo) == i.command.base64
  }

  /** What the record of a command that passed its checks satisfies. */
  lemma SavedRecord(w: World, i: Intent, context: Option<Context>, scope: Scope)
    requires Inv(w) && TaskOk(w, None, Saving(0, i, context)) && RecordOf(scope, i, context).Some?
    requires Uncrossed(w, i, context)
    ensures var r := RecordOf(scope, i, context).value;
            && r.key in w.log.made && ContextOk(w, r.context) && (r.command.None? ==> r.context.Some? && r.scope.Incidents?)
            && (r.command.Some? ==> !r.command.value.Upload? && (r.command.value.Plain? || r.scope.Incidents?))
            && MadeOk(w, Rebuilt(w, r))
            && (r.command.Some? && r.command.value.Report? ==> IntentOk(w, i) && i.command == r.command.value)
  {
    hide ControllersOk, JobsOk, SlotOk, HistoryOk;
  }

  /** The slot after a save, and the command's standing in it. */
  lemma SavedSlot(w: World, i: Intent, context: Option<Context>, scope: Scope, fault: Fault)
    requires Inv(w) && TaskOk(w, None, Saving(0, i, context)) && RecordOf(scope, i, context).Some?
    requires w.slot.None? && !fault.NotApplied? ==>
               Uncrossed(w, i, context) && (!w.log.respent && i.command.Upload? ==> !Spent(w, i.key))
    ensures var r := RecordOf(scope, i, context).value;
            var n := Store(w, Save(w.slot, r, fault).slot);
            && Inv(n) && IntentOk(n, i) && n.controllers == w.controllers && n.jobs == w.jobs
            && (Save(w.slot, r, fault).ok ==> i.key in n.log.written)
  {
    var r := RecordOf(scope, i, context).value;
    var out := Save(w.slot, r, fault);
    if out.slot != w.slot {
      SavedRecord(w, i, context, scope);
      assert r.command.Some? && r.command.value.Report? ==> EvidenceOk(w);
      WriteKeeps(w, r);
      IntentGrows(w, Write(w, r), i);
    } else if out.ok {
      assert SlotOk(w) && w.slot == Some(r);
    }
    hide Inv, TaskOk, IntentOk, RecordOf, Spent, Uncrossed;
  }

  lemma UnmarkedSave(w: World, j: Job, fault: Fault)
    requires Waiting(w, j) && j.at.Saving? && ToSave(w, j).Some? && w.slot.None? && !fault.NotApplied?
    requires Respends(w, Saved(j, fault)) ==> w.log.respent
    requires Crosses(w, Saved(j, fault)) ==> w.log.crossed
    ensures Uncrossed(w, j.at.intent, j.at.context)
    ensures !w.log.respent && j.at.intent.command.Upload? ==> !Spent(w, j.at.intent.key)
  {
    hide Spent, RecordOf;
  }

  lemma SavedKeeps(w: World, j: Job, fault: Fault)
    requires Inv(w) && Waiting(w, j) && j.at.Saving?
    requires Respends(w, Saved(j, fault)) ==> w.log.respent
    requires Crosses(w, Saved(j, fault)) ==> w.log.crossed
    ensures Inv(SavedStep(w, j, fault))
  {
    var c, i := w.controllers[j.owner], j.at.intent;
    var r := RecordOf(c.scope, i, j.at.context);
    JobOf(w, j);
    assert TaskOk(w, None, Saving(0, i, j.at.context));
    if w.slot.None? && !fault.NotApplied? && r.Some? { UnmarkedSave(w, j, fault); }
    hide Inv, TaskOk, IntentOk, RecordOf, Spent, Save, Store, Post, Respends, Crosses, Uncrossed;
    if r.None? {
      ControllerOf(w, j.owner);
      FinishOk(w, c, j.at.epoch);
      ResumeKeeps(w, j, AfterSave(c, j.at.epoch, i, false));
    } else {
      var out := Save(w.slot, r.value, fault);
      var n := Store(w, out.slot);
      SavedSlot(w, i, j.at.context, c.scope, fault);
      if out.ok {
        PostKeeps(n, i);
        IntentGrows(n, Post(n, i), i);
        Posted(n, i);
      }
      AfterSaveKeeps(if out.ok then Post(n, i) else n, j, out.ok);
    }
  }

  lemma Posted(w: World, i: Intent)
    ensures var n := Post(w, i); i in n.log.posted && n.controllers == w.controllers && n.jobs == w.jobs
  {
  }

  lemma AfterSaveKeeps(m: World, j: Job, ok: bool)
    requires Inv(m) && Waiting(m, j) && j.at.Saving? && IntentOk(m, j.at.intent)
    requires ok ==> j.at.intent in m.log.posted
    ensures Inv(Resume(m, j, AfterSave(m.controllers[j.owner], j.at.epoch, j.at.intent, ok)))
  {
    hide IntentOk, Inv;
    var c := m.controllers[j.owner];
    ControllerOf(m, j.owner);
    FinishOk(m, c, j.at.epoch);
    ResumeKeeps(m, j, AfterSave(c, j.at.epoch, j.at.intent, ok));
  }

  lemma HearKeeps(w: World, key: Key)
    requires Inv(w) && exists i :: i in w.log.posted && i.key == key
    ensures Inv(Hear(w, key)) && Grows(w, Hear(w, key))
  {
    hide ControllerOk, TaskOk;
    var n := Hear(w, key);
    assert Grows(w, n);
    SameWrites(w, n);
    StorageKeeps(w, n);
  }

  lemma FollowUpFresh(w: World, c: Controller, i: Intent, reply: Reply, open: bool, key: Key)
    requires Inv(w) && IntentOk(w, i) && ReplyFits(w, i, reply) && key !in w.log.made
    ensures var next := FollowUp(c, i, reply, open, key);
            next.Some? ==>
              && FreshCommand(w, next.value) && !next.value.command.Upload? && i.key != key
              && (next.value.command.Report? ==>
                  && i.command.Upload? && next.value.command.evidence in w.issued
                  && w.issued[next.value.command.evidence] == i.key)
  {
    hide ControllersOk, JobsOk, SlotOk, WrittenOk, PostedOk, ResolvedOk;
  }

  lemma AfterReplyOk(w: World, c: Controller, epoch: nat, i: Intent, reply: Reply, open: bool, key: Key)
    requires ControllerOk(w, c) && IntentOk(w, i) && (Settles(c, epoch, i, reply) ==> i.key in w.log.resolved)
    requires var next := FollowUp(c, i, reply, open, key);
             next.Some? ==>
               && MadeOk(w, next.value) && !next.value.command.Upload?
               && (next.value.command.Report? ==>
                   && i.command.Upload? && next.value.command.evidence in w.issued
                   && w.issued[next.value.command.evidence] == i.key)
    ensures var s := AfterReply(c, epoch, i, reply, open, key);
            && ControllerOk(w, s.c) && s.c.snapshot == c.snapshot
            && (s.wait.Some? ==> TaskOk(w, c.snapshot, s.wait.value))
  {
    hide IntentOk, MadeOk;
    FinishOk(w, c, epoch);
  }

  lemma RepliedKeeps(w: World, j: Job, reply: Reply, open: bool, key: Key)
    requires Inv(w) && Waiting(w, j) && j.at.Posting?
    ensures Inv(RepliedStep(w, j, reply, open, key))
  {
    hide Inv, IntentOk, MadeOk, FollowUp, AfterReply;
    var c, i := w.controllers[j.owner], j.at.intent;
    JobOf(w, j);
    if ReplyFits(w, i, reply) && key !in w.log.made {
      var heard := if Settles(c, j.at.epoch, i, reply) then Hear(w, i.key) else w;
      if Settles(c, j.at.epoch, i, reply) { HearKeeps(w, i.key); IntentGrows(w, heard, i); }
      var next := FollowUp(c, i, reply, open, key);
      FollowUpFresh(heard, c, i, reply, open, key);
      var m := if next.Some? then Make(heard, next.value) else heard;
      if next.Some? {
        MakeKeeps(heard, next.value);
        IntentGrows(heard, m, i);
        MadeNow(heard, next.value);
      }
      ControllerOf(m, j.owner);
      AfterReplyOk(m, c, j.at.epoch, i, reply, open, key);
      ResumeKeeps(m, j, AfterReply(c, j.at.epoch, i, reply, open, key));
    }
  }

  lemma MadeNow(w: World, i: Intent)
    ensures MadeOk(Make(w, i), i)
  {
  }

  /** The slot still has an upload whose evidence no report has named. */
  lemma UnspentPrior(w: World, prior: Intent, e: Evidence)
    requires Inv(w) && MadeOk(w, prior) && prior.command.Upload? && Holds(w, prior.key) && !w.log.respent
    requires e in w.issued && w.issued[e] == prior.key
    ensures e !in w.log.reported
  {
    hide ControllersOk, JobsOk, HistoryOk;
    var r := w.slot.value;
    assert IntentOk(w, Rebuilt(w, r));
    assert r.command.None?;
    assert !Spent(w, r.key);
  }

  lemma AfterAdvanceOk(w: World, c: Controller, epoch: nat, prior: Intent, next: Intent, why: Why, ok: bool)
    requires ControllerOk(w, c) && IntentOk(w, prior) && prior.key in w.log.resolved && !next.command.Upload?
    requires ok ==> IntentOk(w, next)
    ensures var s := AfterAdvance(c, epoch, prior, next, why, ok);
            && ControllerOk(w, s.c) && s.c.snapshot == c.snapshot
            && (s.wait.Some? ==> TaskOk(w, c.snapshot, s.wait.value))
  {
    hide IntentOk;
  }

  /** The slot after an advance, and where the prior and the follow-up command stand. */
  lemma AdvancedSlot(w: World, t: Task, scope: Scope, fault: Fault)
    requires Inv(w) && t.Advancing? && TaskOk(w, None, t) && RecordOf(scope, t.next, t.context).Some?
    ensures var out := Advance(w.slot, Holds(w, t.prior.key), RecordOf(scope, t.next, t.context).value, fault);
            var n := Store(w, out.slot);
            && Inv(n) && n.controllers == w.controllers && n.jobs == w.jobs
            && IntentOk(n, t.prior) && t.prior.key in n.log.resolved && (out.ok ==> IntentOk(n, t.next))
  {
    var r := RecordOf(scope, t.next, t.context).value;
    var out := Advance(w.slot, Holds(w, t.prior.key), r, fault);
    if out.slot != w.slot {
      AdvanceWrites(w, t, r);
    }
    hide Inv, IntentOk;
  }

  lemma AdvancedKeeps(w: World, j: Job, fault: Fault)
    requires Inv(w) && Waiting(w, j) && j.at.Advancing?
    ensures Inv(AdvancedStep(w, j, fault))
  {
    var c, t := w.controllers[j.owner], j.at;
    var r := RecordOf(c.scope, t.next, t.context);
    JobOf(w, j);
    assert TaskOk(w, None, t) && IntentOk(w, t.prior) && t.prior.key in w.log.resolved && !t.next.command.Upload?;
    hide Inv, IntentOk, TaskOk, Advance, RecordOf, Store, AfterAdvance;
    var out := if r.None? then Outcome(w.slot, false) else Advance(w.slot, Holds(w, t.prior.key), r.value, fault);
    var n := Store(w, out.slot);
    if r.Some? { AdvancedSlot(w, t, c.scope, fault); } else { StoreSame(w); }
    ControllerOf(n, j.owner);
    AfterAdvanceOk(n, c, t.epoch, t.prior, t.next, t.why, out.ok);
    ResumeKeeps(n, j, AfterAdvance(c, t.epoch, t.prior, t.next, t.why, out.ok));
  }

  lemma StoreSame(w: World)
    ensures Store(w, w.slot) == w
  {
  }

  lemma AdvanceWrites(w: World, t: Task, r: Record)
    requires Inv(w) && t.Advancing? && TaskOk(w, None, t) && Holds(w, t.prior.key)
    requires r == Record(r.scope, t.next.key, Some(t.next.command), t.context) && Allowed(r.scope, t.next.command)
    ensures Inv(Write(w, r)) && IntentOk(Write(w, r), t.next)
    ensures IntentOk(Write(w, r), t.prior) && t.prior.key in Write(w, r).log.resolved
  {
    hide ControllersOk, JobsOk, PostedOk;
    if t.next.command.Report? && !w.log.respent {
      UnspentPrior(w, t.prior, t.next.command.evidence);
    }
    WriteKeeps(w, r);
    IntentGrows(w, Write(w, r), t.prior);
  }

  /** The slot is emptied only once its command is answered or abandoned. */
  lemma EmptyKeeps(w: World, n: World, key: Key)
    requires Inv(w) && key in w.log.made
    requires n == w.(slot := None, files := n.files, log := w.log.(abandoned := n.log.abandoned))
    requires w.slot.Some? ==> w.slot.value.key == key
    requires (key in w.log.resolved && n.log.abandoned == w.log.abandoned)
             || (w.log.made[key].Upload? && n.log.abandoned == w.log.abandoned + {key})
    ensures Inv(n)
  {
    assert Grows(w, n) && SlotOk(n);
    EmptiedHistory(w, n, key);
    hide Inv, SlotOk, WrittenOk, PostedOk, EvidenceOk, ResolvedOk, MarksOk, Grows;
    StorageKeeps(w, n);
  }

  lemma EmptiedHistory(w: World, n: World, key: Key)
    requires Inv(w) && key in w.log.made && Grows(w, n)
    requires n == w.(slot := None, files := n.files, log := w.log.(abandoned := n.log.abandoned))
    requires w.slot.Some? ==> w.slot.value.key == key
    requires (key in w.log.resolved && n.log.abandoned == w.log.abandoned)
             || (w.log.made[key].Upload? && n.log.abandoned == w.log.abandoned + {key})
    ensures HistoryOk(n)
  {
    hide ControllersOk, JobsOk, SlotOk, IntentOk, Grows;
    forall k | k in n.log.written ensures k in n.log.made && Held(n, k) { assert k in w.log.made && Held(w, k); }
    forall j | j in n.log.posted ensures IntentOk(n, j) { IntentGrows(w, n, j); }
  }

  lemma AfterClearOk(w: World, c: Controller, epoch: nat, i: Intent, settled: Settled)
    requires ControllerOk(w, c)
    ensures ControllerOk(w, AfterClear(c, epoch, i, settled))
    ensures var s := AfterClear(c, epoch, i, settled).snapshot; s.None? || s == c.snapshot
  {
    hide IntentOk;
  }

  /** Storage and history after a clear, before the controller learns of it. */
  function Cleaned(w: World, j: Job, fault: Fault, unlinked: bool): World
    requires Waiting(w, j) && (j.at.Clearing? || j.at.Expiring?)
  {
    var n := Emptied(w, j.at.intent.key, fault, unlinked);
    if j.at.Clearing? || n.slot == w.slot then n
    else n.(log := n.log.(abandoned := n.log.abandoned + {j.at.intent.key}))
  }

  lemma CleanedKeeps(w: World, j: Job, fault: Fault, unlinked: bool)
    requires Inv(w) && Waiting(w, j) && (j.at.Clearing? || j.at.Expiring?)
    ensures var m := Cleaned(w, j, fault, unlinked);
            Inv(m) && m.controllers == w.controllers && m.jobs == w.jobs
  {
    JobOf(w, j);
    var m := Cleaned(w, j, fault, unlinked);
    assert j.at.intent.key in w.log.made by { hide Inv; }
    hide TaskOk, Inv;
    if m.slot != w.slot { EmptyKeeps(w, m, j.at.intent.key); }
  }

  lemma ClearedKeeps(w: World, j: Job, fault: Fault, unlinked: bool)
    requires Inv(w) && Waiting(w, j) && (j.at.Clearing? || j.at.Expiring?)
    ensures Inv(ClearedStep(w, j, fault, unlinked))
  {
    var c, i := w.controllers[j.owner], j.at.intent;
    CleanedKeeps(w, j, fault, unlinked);
    var m := Cleaned(w, j, fault, unlinked);
    ControllerOf(m, j.owner);
    hide Inv, IntentOk, PhotoOk, Matches;
    if j.at.Clearing? {
      AfterClearOk(m, c, j.at.epoch, i, j.at.settled);
      ResumeKeeps(m, j, Segment(AfterClear(c, j.at.epoch, i, j.at.settled), None));
    } else {
      ResumeKeeps(m, j, Segment(AfterExpiry(c), None));
    }
  }

  /** What a restore hands to the controller fits the command it rebuilds. */
  lemma RestoredCommand(w: World)
    requires Inv(w) && w.slot.Some?
    ensures var r := w.slot.value; var i := Rebuilt(w, r);
            && IntentOk(w, i) && i.key in w.log.written && ContextOk(w, r.context)
            && (i.command.Upload? ==>
                r.scope.Incidents? && r.context.Some? && Picture(w, r.context.value.photo) == i.command.base64)
  {
    hide ControllersOk, JobsOk, PostedOk, EvidenceOk, IntentOk;
  }

  lemma AfterRestoreOk(w: World, c: Controller, i: Intent, context: Option<Context>)
    requires ControllerOk(w, c) && IntentOk(w, i) && ContextOk(w, context)
    requires i.command.Upload? ==>
               c.scope.Incidents? && context.Some? && Picture(w, context.value.photo) == i.command.base64
    requires c.scope.Incidents? && context.Some? && c.intent.Some? && OtherUpload(c.intent.value, i.key) ==>
               w.log.overlapped
    requires MarksOk(w)
    ensures var s := AfterRestore(c, Some((i, context)));
            ControllerOk(w, s.c) && (s.wait.Some? ==> TaskOk(w, s.c.snapshot, s.wait.value))
  {
    if context.Some? {
      var picture := if i.command.Upload? then Some(i.command.base64) else None;
      assert PhotoOk(w, Draft(context.value.claim, Some(Photo(context.value.photo, picture))));
    }
    hide PhotoOk;
  }

  lemma RestoredKeeps(w: World, j: Job, fault: Fault)
    requires Inv(w) && Waiting(w, j) && j.at.Restoring?
    requires Overlaps(w, Restored(j, fault)) ==> w.log.overlapped
    ensures Inv(RestoredStep(w, j, fault))
  {
    assert MarksOk(w);
    hide Inv, IntentOk, ContextOk, ControllerOk, MarksOk, Rebuilt;
    var c := w.controllers[j.owner];
    ControllerOf(w, j.owner);
    var found := Found(w, c.scope);
    if fault.NotApplied? || found.Err? {
      ResumeKeeps(w, j, Segment(c, None));
    } else if found.value.None? {
      RefreshOk(w, c);
      ResumeKeeps(w, j, AfterRestore(c, None));
    } else {
      var i, context := Rebuilt(w, w.slot.value), w.slot.value.context;
      RestoredCommand(w);
      AfterRestoreOk(w, c, i, context);
      RestoredSuits(w, j.owner, i, context);
      ResumeKeeps(w, j, AfterRestore(c, Some((i, context))));
    }
  }

  lemma RefreshOk(w: World, c: Controller)
    requires ControllerOk(w, c)
    ensures var s := AfterRestore(c, None);
            ControllerOk(w, s.c) && s.c.snapshot == c.snapshot && (s.wait.Some? ==> TaskOk(w, c.snapshot, s.wait.value))
  {
    hide IntentOk, PhotoOk;
  }

  /** Without an overlap, every other resume of the controller is of the same command. */
  lemma RestoredSuits(w: World, id: nat, i: Intent, context: Option<Context>)
    requires Inv(w) && id in w.controllers && IntentOk(w, i)
    requires i.command.Upload? ==> context.Some? && Picture(w, context.value.photo) == i.command.base64
    requires w.controllers[id].scope.Incidents? && context.Some? && ResumingOther(w, id, i.key) ==> w.log.overlapped
    ensures SnapshotSuits(w, id, AfterRestore(w.controllers[id], Some((i, context))).c.snapshot)
  {
    assert MarksOk(w);
    hide SlotOk, HistoryOk, PhotoOk;
    var snapshot := AfterRestore(w.controllers[id], Some((i, context))).c.snapshot;
    forall j | j in w.jobs && j.owner == id && j.at.Resuming?
      ensures Matches(w, snapshot, j.at.intent)
    {
      assert TaskOk(w, w.controllers[id].snapshot, j.at);
      if w.controllers[id].scope.Incidents? && !w.log.overlapped && context.Some? {
        assert !OtherUpload(j.at.intent, i.key);
      }
    }
  }

  lemma AfterResumeOk(w: World, c: Controller, i: Intent, listsLoaded: bool)
    requires ControllerOk(w, c) && IntentOk(w, i) && Matches(w, c.snapshot, i)
    ensures ControllerOk(w, AfterResume(c, i, listsLoaded)) && AfterResume(c, i, listsLoaded).snapshot == c.snapshot
  {
    hide IntentOk, PhotoOk, Matches;
  }

  lemma ResumedKeeps(w: World, j: Job, listsLoaded: bool)
    requires Inv(w) && Waiting(w, j) && j.at.Resuming?
    ensures Inv(Effect(w, Resumed(j, listsLoaded)))
  {
    hide Inv, IntentOk, Matches, ControllerOk;
    JobOf(w, j);
    ControllerOf(w, j.owner);
    AfterResumeOk(w, w.controllers[j.owner], j.at.intent, listsLoaded);
    ResumeKeeps(w, j, Segment(AfterResume(w.controllers[j.owner], j.at.intent, listsLoaded), None));
  }

  lemma IssueKeeps(w: World, i: Intent, evidence: Evidence)
    requires Inv(w) && i in w.log.posted && i.command.Upload? && evidence !in w.issued
    requires forall e :: e in w.issued ==> w.issued[e] != i.key
    ensures Inv(w.(issued := w.issued[evidence := i.key]))
  {
    var n := w.(issued := w.issued[evidence := i.key]);
    IssueEvidence(w, i, evidence);
    UnspentStill(w, n);
    SameWrites(w, n);
    hide Inv, Grows, SlotOk, WrittenOk, PostedOk, EvidenceOk;
    StorageKeeps(w, n);
  }

  lemma IssueEvidence(w: World, i: Intent, evidence: Evidence)
    requires Inv(w) && i in w.log.posted && i.command.Upload? && evidence !in w.issued
    requires forall e :: e in w.issued ==> w.issued[e] != i.key
    ensures var n := w.(issued := w.issued[evidence := i.key]);
            EvidenceOk(n) && Grows(w, n) && evidence !in w.log.reported
  {
    hide ControllersOk, JobsOk, SlotOk, WrittenOk;
    assert IntentOk(w, i);
  }

  /** Evidence nobody has reported yet spends nothing. */
  lemma UnspentStill(w: World, n: World)
    requires SlotOk(w) && Grows(w, n) && n.slot == w.slot && n.log == w.log && n.pixels == w.pixels
    requires forall e :: e in n.issued && e in w.log.reported ==> e in w.issued && w.issued[e] == n.issued[e]
    ensures SlotOk(n)
  {
  }

  lemma DeviceStepKeeps(w: World, s: Step)
    requires Inv(w) && (s.Crash? || s.Cleanup?)
    ensures Inv(Effect(w, s))
  {
    SameHistory(w, Effect(w, s));
    hide SlotOk, HistoryOk;
    if s.Cleanup? {
      var n := Effect(w, s);
      forall id | id in n.controllers ensures ControllerOk(n, n.controllers[id]) { SameController(w, n, n.controllers[id]); }
      forall j | j in n.jobs ensures j.owner in n.controllers && TaskOk(n, n.controllers[j.owner].snapshot, j.at) {
        SameTask(w, n, n.controllers[j.owner].snapshot, j.at);
      }
    }
  }

  lemma EffectKeeps(w: World, s: Step)
    requires Inv(w) && (Overlaps(w, s) ==> w.log.overlapped)
    requires (Crosses(w, s) ==> w.log.crossed) && (Respends(w, s) ==> w.log.respent)
    ensures Inv(Effect(w, s))
  {
    hide Inv, Overlaps, Crosses, Respends, SavedStep, RepliedStep, AdvancedStep, ClearedStep, RestoredStep;
    if LocalStep(s) { LocalStepKeeps(w, s); }
    else {
      match s
      case ChoosePhoto(_, _, _) => PhotoStepKeeps(w, s);
      case DropPhoto(_) => PhotoStepKeeps(w, s);
      case Report(_, _) => CommandStepKeeps(w, s);
      case Request(_, _, _) => CommandStepKeeps(w, s);
      case Saved(j, fault) => if Waiting(w, j) && j.at.Saving? { SavedKeeps(w, j, fault); }
      case Replied(j, reply, open, key) => if Waiting(w, j) && j.at.Posting? { RepliedKeeps(w, j, reply, open, key); }
      case Advanced(j, fault) => if Waiting(w, j) && j.at.Advancing? { AdvancedKeeps(w, j, fault); }
      case Cleared(j, fault, unlinked) =>
        if Waiting(w, j) && (j.at.Clearing? || j.at.Expiring?) { ClearedKeeps(w, j, fault, unlinked); }
      case Restored(j, fault) => if Waiting(w, j) && j.at.Restoring? { RestoredKeeps(w, j, fault); }
      case Resumed(j, listsLoaded) => if Waiting(w, j) && j.at.Resuming? { ResumedKeeps(w, j, listsLoaded); }
      case Issue(i, evidence) =>
        if i in w.log.posted && i.command.Upload? && evidence !in w.issued
           && !(exists e :: e in w.issued && w.issued[e] == i.key) {
          IssueKeeps(w, i, evidence);
        }
      case Crash => DeviceStepKeeps(w, s);
      case Cleanup => DeviceStepKeeps(w, s);
      case _ =>
    }
  }

  /** A crossing save finds a snapshot that a resume replaced. */
  lemma CrossedByOverlap(w: World, s: Step)
    requires Inv(w) && Crosses(w, s)
    ensures w.log.overlapped
  {
    JobOf(w, s.job);
    hide Inv;
  }

  /** Recording that a promise is off only weakens the invariant. */
  lemma FlagKeeps(w: World, s: Step)
    requires Inv(w)
    ensures Inv(Flagged(w, s))
    ensures Overlaps(Flagged(w, s), s) ==> Flagged(w, s).log.overlapped
    ensures Crosses(Flagged(w, s), s) ==> Flagged(w, s).log.crossed
    ensures Respends(Flagged(w, s), s) ==> Flagged(w, s).log.respent
  {
    var n := Flagged(w, s);
    if Crosses(w, s) { CrossedByOverlap(w, s); }
    SameCircumstances(w, n, s);
    hide Overlaps, Crosses, Respends;
    FlagGrows(w, s);
    hide Flagged;
    SameWrites(w, n);
    MarkedSlot(w, n);
    hide SlotOk, WrittenOk, PostedOk, Grows, ControllersOk, JobsOk, MarksOk;
    StorageKeeps(w, n);
  }

  lemma FlagGrows(w: World, s: Step)
    requires MarksOk(w) && (Crosses(w, s) ==> w.log.overlapped)
    ensures var n := Flagged(w, s);
            && Grows(w, n) && MarksOk(n) && n.controllers == w.controllers && n.jobs == w.jobs && n.slot == w.slot
            && n.log.written == w.log.written && n.log.posted == w.log.posted && n.log.abandoned == w.log.abandoned
            && n == w.(log := w.log.(overlapped := n.log.overlapped, crossed := n.log.crossed, respent := n.log.respent))
            && (Overlaps(w, s) ==> n.log.overlapped) && (Crosses(w, s) ==> n.log.crossed) && (Respends(w, s) ==> n.log.respent)
  {
    hide Overlaps, Crosses, Respends;
  }

  lemma MarkedSlot(w: World, n: World)
    requires Inv(w) && Grows(w, n)
    requires n == w.(log := w.log.(overlapped := n.log.overlapped, crossed := n.log.crossed, respent := n.log.respent))
    ensures SlotOk(n) && EvidenceOk(n) && ResolvedOk(n)
  {
    hide ControllersOk, JobsOk, WrittenOk, PostedOk;
  }

  /** The marks are read by nothing. */
  lemma SameCircumstances(w: World, n: World, s: Step)
    requires n == w.(log := w.log.(overlapped := n.log.overlapped, crossed := n.log.crossed, respent := n.log.respent))
    ensures Overlaps(n, s) == Overlaps(w, s) && Crosses(n, s) == Crosses(w, s) && Respends(n, s) == Respends(w, s)
    ensures Posts(n, s) == Posts(w, s) && Unbacks(n, s) == Unbacks(w, s)
  {
    hide CanReport, RecordOf, Rebuilt;
  }

  lemma NextKeeps(w: World, s: Step)
    requires Inv(w)
    ensures Inv(Next(w, s))
  {
    hide Inv, Overlaps, Crosses, Respends, Effect;
    FlagKeeps(w, s);
    EffectKeeps(Flagged(w, s), s);
  }

  lemma {:induction false} RunKeeps(w: World, steps: seq<Step>)
    requires Inv(w)
    ensures Inv(Run(w, steps))
    decreases |steps|
  {
    hide Inv, Next;
    if steps != [] {
      RunKeeps(w, steps[..|steps| - 1]);
      NextKeeps(Run(w, steps[..|steps| - 1]), steps[|steps| - 1]);
    }
  }

  lemma EveryRunKeeps(steps: seq<Step>)
    ensures Inv(Run(BOOT, steps))
  {
    assert Inv(BOOT);
    RunKeeps(BOOT, steps);
  }
}
