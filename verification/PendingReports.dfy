/**
 What the server is told. In a disciplined run every upload carries the picture, and every
 report the order and the claim, that the buyer had on screen when the report was begun, across
 crashes, restores, storage faults and lost answers.
 */
module PendingReports {
  import opened Wrappers
  import opened PendingSlot
  import opened PendingController
  import opened PendingWorld
  import opened PendingInvariants
  import opened PendingPreservation
  import opened PendingHistory
  import opened PendingTheorems
  import opened PendingDiscipline
  import opened PendingSerial

  /** What was on screen when the buyer pressed report. */
  datatype Entry = Entry(order: Option<nat>, draft: Draft)
  type Entries = map<Key, Entry>

  /** What was entered for each upload of a run. */
  function Entered(steps: seq<Step>): Entries
    decreases |steps|
  {
    if steps == [] then map[]
    else
      var was, front, s := Entered(steps[..|steps| - 1]), Run(BOOT, steps[..|steps| - 1]), steps[|steps| - 1];
      Noted(was, front, s)
  }

  function Noted(e: Entries, w: World, s: Step): Entries {
    if s.Report? && Reports(w, s.id, s.key)
    then e[s.key := Entry(w.controllers[s.id].orderId, w.controllers[s.id].draft)] else e
  }

  predicate Filed(e: Entries, order: Option<nat>, claim: Claim, key: Key) {
    key in e && e[key].order == order && e[key].draft.claim == claim
  }

  predicate SnapTrue(e: Entries, c: Controller, i: Intent) {
    i.command.Upload? && c.snapshot.Some? ==> Filed(e, c.orderId, c.snapshot.value.claim, i.key)
  }

  predicate ContextTrue(e: Entries, context: Option<Context>, i: Intent) {
    i.command.Upload? && context.Some? ==> Filed(e, Some(context.value.order), context.value.claim, i.key)
  }

  predicate TaskTrue(e: Entries, c: Controller, t: Task) {
    match t
    case Saving(_, i, context) => ContextTrue(e, context, i)
    case Resuming(i) => SnapTrue(e, c, i)
    case _ => true
  }

  predicate LocalTrue(e: Entries, c: Controller) {
    c.intent.Some? ==> SnapTrue(e, c, c.intent.value)
  }

  /** An incidents controller and the methods it waits in. */
  predicate OwnTrue(w: World, e: Entries, id: nat)
    requires id in w.controllers
  {
    && LocalTrue(e, w.controllers[id])
    && (forall j :: j in w.jobs && j.owner == id ==> TaskTrue(e, w.controllers[id], j.at))
  }

  predicate SlotTrue(w: World, e: Entries) {
    w.slot.Some? && w.slot.value.command.None? && w.slot.value.context.Some? ==>
      Filed(e, Some(w.slot.value.context.value.order), w.slot.value.context.value.claim, w.slot.value.key)
  }

  predicate UploadTrue(e: Entries, key: Key, base64: nat) {
    key in e && e[key].draft.photo.Some? && e[key].draft.photo.value.base64 == Some(base64)
  }

  predicate MadeTrue(w: World, e: Entries) {
    && (forall k :: k in e ==> k in w.log.made)
    && (forall k :: k in w.log.made && w.log.made[k].Upload? ==> UploadTrue(e, k, w.log.made[k].base64))
    && (forall k :: k in w.log.made && w.log.made[k].Report? ==>
          && w.log.made[k].evidence in w.issued
          && Filed(e, Some(w.log.made[k].order), w.log.made[k].claim, w.issued[w.log.made[k].evidence]))
  }

  predicate AllOwnTrue(w: World, e: Entries) {
    forall id :: id in w.controllers && w.controllers[id].scope.Incidents? ==> OwnTrue(w, e, id)
  }

  predicate Truthful(w: World, e: Entries) {
    AllOwnTrue(w, e) && SlotTrue(w, e) && MadeTrue(w, e)
  }

  // One controller moves.

  predicate SameEntry(c: Controller, d: Controller) {
    d.snapshot.None? || (d.snapshot == c.snapshot && d.orderId == c.orderId)
  }

  predicate SegmentTrue(e: Entries, c: Controller, s: Segment) {
    && SameEntry(c, s.c)
    && (s.c.intent.Some? && s.c.intent != c.intent ==> SnapTrue(e, s.c, s.c.intent.value))
    && (s.wait.Some? ==> TaskTrue(e, s.c, s.wait.value))
  }

  lemma OwnBySegment(w: World, n: World, id: nat, s: Segment, e: Entries)
    requires id in w.controllers && id in n.controllers && n.controllers[id] == s.c
    requires OwnTrue(w, e, id) && SegmentTrue(e, w.controllers[id], s)
    requires forall j :: j in n.jobs && j.owner == id ==> j in w.jobs || (s.wait.Some? && j.at == s.wait.value)
    ensures OwnTrue(n, e, id)
  {
  }

  /** Everything but this controller and its methods stays. */
  predicate OnlyMoves(w: World, n: World, id: nat) {
    && id in w.controllers && n.controllers.Keys == w.controllers.Keys && n.controllers[id].scope == w.controllers[id].scope
    && (forall i :: i in w.controllers && i != id ==> n.controllers[i] == w.controllers[i])
    && (forall j :: j in n.jobs ==> j in w.jobs || j.owner == id)
  }

  lemma OthersTrue(w: World, n: World, id: nat, e: Entries)
    requires AllOwnTrue(w, e) && OnlyMoves(w, n, id) && (n.controllers[id].scope.Incidents? ==> OwnTrue(n, e, id))
    ensures AllOwnTrue(n, e)
  {
    forall i | i in n.controllers && n.controllers[i].scope.Incidents?
      ensures OwnTrue(n, e, i)
    {
      if i != id { assert OwnTrue(w, e, i); }
    }
  }

  lemma GoMoves(w: World, m: World, id: nat, s: Segment)
    requires id in w.controllers && m.controllers == w.controllers && m.jobs == w.jobs && s.c.scope == w.controllers[id].scope
    ensures OnlyMoves(w, Go(m, id, s), id) && Go(m, id, s).controllers[id] == s.c
    ensures var n := Go(m, id, s);
            forall j :: j in n.jobs && j.owner == id ==> j in w.jobs || (s.wait.Some? && j.at == s.wait.value)
  {
  }

  lemma ResumeMoves(w: World, m: World, j: Job, s: Segment)
    requires Waiting(w, j) && m.controllers == w.controllers && m.jobs == w.jobs && s.c.scope == w.controllers[j.owner].scope
    ensures var n := Resume(m, j, s);
            && OnlyMoves(w, n, j.owner) && n.controllers[j.owner] == s.c
            && n.slot == m.slot && n.log == m.log && n.issued == m.issued
            && (forall k :: k in n.jobs && k.owner == j.owner ==> k in w.jobs || (s.wait.Some? && k.at == s.wait.value))
  {
    var n := Resume(m, j, s);
    assert forall k :: k in n.jobs ==> k in m.jobs || (s.wait.Some? && k == Job(j.owner, s.wait.value));
  }

  /** A waiting method goes on; storage and history may have moved with it. */
  lemma ResumeTrue(w: World, m: World, j: Job, s: Segment, e: Entries)
    requires Truthful(w, e) && Waiting(w, j) && m.controllers == w.controllers && m.jobs == w.jobs
    requires SlotTrue(m, e) && MadeTrue(m, e) && s.c.scope == w.controllers[j.owner].scope
    requires w.controllers[j.owner].scope.Incidents? ==> SegmentTrue(e, w.controllers[j.owner], s)
    ensures Truthful(Resume(m, j, s), e)
  {
    var n := Resume(m, j, s);
    ResumeMoves(w, m, j, s);
    hide Resume, SegmentTrue, OwnTrue, OnlyMoves;
    if w.controllers[j.owner].scope.Incidents? { OwnBySegment(w, n, j.owner, s, e); }
    OthersTrue(w, n, j.owner, e);
  }

  lemma GoTrue(w: World, m: World, id: nat, s: Segment, e: Entries)
    requires Truthful(w, e) && id in w.controllers && m.controllers == w.controllers && m.jobs == w.jobs
    requires SlotTrue(m, e) && MadeTrue(m, e) && s.c.scope == w.controllers[id].scope
    requires w.controllers[id].scope.Incidents? ==> SegmentTrue(e, w.controllers[id], s)
    ensures Truthful(Go(m, id, s), e)
  {
    var n := Go(m, id, s);
    GoMoves(w, m, id, s);
    assert n.slot == m.slot && n.log == m.log && n.issued == m.issued;
    hide Go, SegmentTrue, OwnTrue, OnlyMoves;
    if w.controllers[id].scope.Incidents? { OwnBySegment(w, n, id, s, e); }
    OthersTrue(w, n, id, e);
  }

  // Presses.

  lemma RetryTrue(e: Entries, c: Controller, open: bool)
    requires LocalTrue(e, c)
    ensures SegmentTrue(e, c, PendingController.Retry(c, open)) && PendingController.Retry(c, open).c.scope == c.scope
  {
  }

  predicate LocalPressStep(s: Step) {
    s.Start? || s.Stop? || s.Refresh? || s.Unlock? || s.SetClaim? || s.Retry?
  }

  function LocalSegment(c: Controller, s: Step): Segment
    requires LocalPressStep(s)
  {
    match s
    case Start(_) => PendingController.Start(c)
    case Stop(_) => Segment(PendingController.Stop(c), None)
    case Refresh(_) => PendingController.Refresh(c)
    case Unlock(_) => Segment(if c.scope.Cart? then c.(locked := false) else c, None)
    case SetClaim(_, claim) => Segment(PendingController.SetClaim(c, claim), None)
    case Retry(_, open) => PendingController.Retry(c, open)
  }

  lemma LocalIs(w: World, s: Step)
    requires LocalPressStep(s) && s.id in w.controllers
    ensures Effect(w, s) == Go(w, s.id, LocalSegment(w.controllers[s.id], s)) || Effect(w, s) == w
  {
    hide PendingController.Retry, PendingController.SetClaim;
  }

  lemma LocalSegmentTrue(e: Entries, c: Controller, s: Step)
    requires LocalPressStep(s) && LocalTrue(e, c)
    ensures SegmentTrue(e, c, LocalSegment(c, s)) && LocalSegment(c, s).c.scope == c.scope
  {
    if s.Retry? { RetryTrue(e, c, s.open); }
  }

  lemma LocalScope(c: Controller, s: Step)
    requires LocalPressStep(s)
    ensures LocalSegment(c, s).c.scope == c.scope
  {
  }

  lemma LocalPress(w: World, s: Step, e: Entries)
    requires Truthful(w, e) && LocalPressStep(s) && s.id in w.controllers
    ensures Truthful(Effect(w, s), e)
  {
    var c := w.controllers[s.id];
    LocalIs(w, s);
    LocalScope(c, s);
    if c.scope.Incidents? {
      assert OwnTrue(w, e, s.id);
      LocalSegmentTrue(e, c, s);
    }
    assert SlotTrue(w, e) && MadeTrue(w, e);
    hide *;
    GoTrue(w, w, s.id, LocalSegment(c, s), e);
  }

  lemma PhotoPressTrue(w: World, s: Step, e: Entries)
    requires Truthful(w, e) && (s.ChoosePhoto? || s.DropPhoto?) && s.id in w.controllers
    ensures Truthful(Effect(w, s), e)
  {
    var c := w.controllers[s.id];
    var photo := if s.ChoosePhoto? then Some(Photo(s.uri, Some(s.base64))) else None;
    var m := Effect(w, s).(controllers := w.controllers);
    var seg := Segment(SetPhoto(c, photo), None);
    assert Effect(w, s) == Go(m, s.id, seg) || Effect(w, s) == w;
    assert m.slot == w.slot && m.log == w.log && m.issued == w.issued && m.jobs == w.jobs;
    assert SegmentTrue(e, c, seg) && seg.c.scope == c.scope;
    hide Effect, SegmentTrue, SetPhoto;
    assert SlotTrue(m, e) && MadeTrue(m, e);
    GoTrue(w, m, s.id, seg, e);
  }

  lemma RequestTrue(w: World, s: Step, e: Entries)
    requires Truthful(w, e) && s.Request? && s.id in w.controllers
    ensures Truthful(Effect(w, s), e)
  {
    var c := w.controllers[s.id];
    if s.key !in w.log.made && Editable(c) {
      var i := Intent(s.key, Plain(s.request));
      var m := Make(w, i);
      var seg := Segment(BeginRequest(c, s.key, s.request), None);
      assert Effect(w, s) == Go(m, s.id, seg);
      assert SegmentTrue(e, c, seg) && seg.c.scope == c.scope;
      assert SlotTrue(m, e) && MadeTrue(m, e);
      hide Effect, SegmentTrue, BeginRequest, Make;
      assert m.controllers == w.controllers && m.jobs == w.jobs;
      GoTrue(w, m, s.id, seg, e);
    }
  }

  /** What was entered for earlier uploads stays; a new upload's key is new. */
  lemma MoreEntries(w: World, e: Entries, key: Key, x: Entry)
    requires Truthful(w, e) && key !in w.log.made
    ensures var f := e[key := x]; AllOwnTrue(w, f) && SlotTrue(w, f)
    ensures forall k :: k in e ==> k in e[key := x] && e[key := x][k] == e[k]
  {
    var f := e[key := x];
    assert key !in e;
    forall id | id in w.controllers && w.controllers[id].scope.Incidents?
      ensures OwnTrue(w, f, id)
    {
      assert OwnTrue(w, e, id);
    }
  }

  lemma ReportedEntry(w: World, e: Entries, i: Intent, x: Entry)
    requires MadeTrue(w, e) && i.key !in w.log.made && i.command.Upload?
    requires x.draft.photo.Some? && x.draft.photo.value.base64 == Some(i.command.base64)
    ensures MadeTrue(Make(w, i), e[i.key := x])
  {
  }

  lemma ReportTrue(w: World, s: Step, e: Entries)
    requires Truthful(w, e) && s.Report? && Reports(w, s.id, s.key) && Quiet(w, s.id)
    ensures Truthful(Effect(w, s), Noted(e, w, s))
  {
    var c := w.controllers[s.id];
    var d := BeginReport(c, s.key);
    var m, n := Make(w, d.intent.value), Effect(w, s);
    var x := Entry(c.orderId, c.draft);
    var f := e[s.key := x];
    assert d.intent.value.key == s.key && Noted(e, w, s) == f;
    assert n == Put(m, s.id, d);
    MoreEntries(w, e, s.key, x);
    ReportedEntry(w, e, d.intent.value, x);
    assert OwnTrue(n, f, s.id);
    assert OnlyMoves(w, n, s.id);
    assert SlotTrue(n, f) && MadeTrue(n, f);
    hide Effect, Make, Reports, OwnTrue, OnlyMoves, Quiet;
    OthersTrue(w, n, s.id, f);
  }

  // Answers.

  lemma JobTrue(w: World, j: Job, e: Entries)
    requires Truthful(w, e) && Waiting(w, j) && w.controllers[j.owner].scope.Incidents?
    ensures TaskTrue(e, w.controllers[j.owner], j.at) && LocalTrue(e, w.controllers[j.owner])
  {
    assert OwnTrue(w, e, j.owner);
  }

  lemma SavedSlotTrue(w: World, j: Job, fault: Fault, e: Entries)
    requires Truthful(w, e) && Waiting(w, j) && j.at.Saving? && ToSave(w, j).Some?
    ensures var m := Store(w, Save(w.slot, ToSave(w, j).value, fault).slot);
            SlotTrue(m, e) && m.controllers == w.controllers && m.jobs == w.jobs && m.issued == w.issued && m.log.made == w.log.made
  {
    if w.controllers[j.owner].scope.Incidents? { JobTrue(w, j, e); }
    hide AllOwnTrue, MadeTrue, Rebuilt;
  }

  lemma SameMade(w: World, m: World, e: Entries)
    requires MadeTrue(w, e) && m.log.made == w.log.made && m.issued == w.issued
    ensures MadeTrue(m, e)
  {
  }

  lemma SavedTrue(w: World, j: Job, fault: Fault, e: Entries)
    requires Truthful(w, e) && Waiting(w, j) && j.at.Saving?
    ensures Truthful(SavedStep(w, j, fault), e)
  {
    var c, i := w.controllers[j.owner], j.at.intent;
    var r := ToSave(w, j);
    var ok := r.Some? && Save(w.slot, r.value, fault).ok;
    var m := if r.None? then w else Store(w, Save(w.slot, r.value, fault).slot);
    var n := if ok then Post(m, i) else m;
    var s := AfterSave(c, j.at.epoch, i, ok);
    assert SavedStep(w, j, fault) == Resume(n, j, s) by { hide ToSave, Save, Store, Post, AfterSave, Resume; }
    assert SegmentTrue(e, c, s) && s.c.scope == c.scope;
    if r.Some? { SavedSlotTrue(w, j, fault, e); }
    hide SavedStep, ToSave, Save, Store, AfterSave, Resume, SegmentTrue, AllOwnTrue;
    assert n.controllers == w.controllers && n.jobs == w.jobs && SlotTrue(n, e);
    SameMade(w, n, e);
    ResumeTrue(w, n, j, s, e);
  }

  /** A report built from a confirmed upload says what was entered for that upload. */
  lemma FollowUpTrue(w: World, c: Controller, i: Intent, reply: Reply, open: bool, key: Key, e: Entries)
    requires MadeTrue(w, e) && key !in w.log.made && ReplyFits(w, i, reply) && SnapTrue(e, c, i)
    ensures var next := FollowUp(c, i, reply, open, key); next.Some? ==> MadeTrue(Make(w, next.value), e)
  {
  }

  lemma RepliedSegmentTrue(e: Entries, c: Controller, epoch: nat, i: Intent, reply: Reply, open: bool, key: Key)
    ensures var s := AfterReply(c, epoch, i, reply, open, key); SegmentTrue(e, c, s) && s.c.scope == c.scope
  {
    hide FollowUp, ContextOf, SnapTrue;
  }

  lemma NoFollowUp(c: Controller, i: Intent, reply: Reply, open: bool, key: Key)
    requires i.command.Plain?
    ensures FollowUp(c, i, reply, open, key).None?
  {
  }

  lemma RepliedTrue(w: World, j: Job, reply: Reply, open: bool, key: Key, e: Entries)
    requires Inv(w) && Tidy(w) && Truthful(w, e) && Waiting(w, j) && j.at.Posting?
    ensures Truthful(RepliedStep(w, j, reply, open, key), e)
  {
    var c, i := w.controllers[j.owner], j.at.intent;
    if ReplyFits(w, i, reply) && key !in w.log.made {
      var heard := if Settles(c, j.at.epoch, i, reply) then Hear(w, i.key) else w;
      var next := FollowUp(c, i, reply, open, key);
      var m := if next.Some? then Make(heard, next.value) else heard;
      var s := AfterReply(c, j.at.epoch, i, reply, open, key);
      assert RepliedStep(w, j, reply, open, key) == Resume(m, j, s) by { hide FollowUp, AfterReply, Resume; }
      RepliedSegmentTrue(e, c, j.at.epoch, i, reply, open, key);
      SameMade(w, heard, e);
      if Incident(w, j.owner) {
        OwnCommand(w, j);
        JobTrue(w, j, e);
        FollowUpTrue(heard, c, i, reply, open, key, e);
      } else {
        PlainOf(w, j.owner);
        NoFollowUp(c, i, reply, open, key);
      }
      hide Inv, Tidy, RepliedStep, FollowUp, AfterReply, Resume, SegmentTrue, AllOwnTrue;
      assert SlotTrue(m, e) && MadeTrue(m, e) && m.controllers == w.controllers && m.jobs == w.jobs by { hide MadeTrue; }
      ResumeTrue(w, m, j, s, e);
    }
  }

  lemma AdvancedTrue(w: World, j: Job, fault: Fault, e: Entries)
    requires Inv(w) && Truthful(w, e) && Waiting(w, j) && j.at.Advancing?
    ensures Truthful(AdvancedStep(w, j, fault), e)
  {
    var c, t := w.controllers[j.owner], j.at;
    JobOf(w, j);
    assert !t.next.command.Upload?;
    var r := RecordOf(c.scope, t.next, t.context);
    var out := if r.None? then Outcome(w.slot, false) else Advance(w.slot, Holds(w, t.prior.key), r.value, fault);
    var m := Store(w, out.slot);
    var s := AfterAdvance(c, t.epoch, t.prior, t.next, t.why, out.ok);
    AdvancedIs(w, j, fault);
    AdvancedSegmentTrue(e, c, t, out.ok);
    if r.Some? { AdvancedSlotTrue(w, t, c.scope, fault, e); }
    assert r.None? ==> m == w;
    hide Inv, AdvancedStep, Advance, Store, RecordOf, AfterAdvance, Resume, SegmentTrue, AllOwnTrue, TaskOk;
    SameMade(w, m, e);
    ResumeTrue(w, m, j, s, e);
  }

  lemma AdvancedIs(w: World, j: Job, fault: Fault)
    requires Waiting(w, j) && j.at.Advancing?
    ensures var c, t := w.controllers[j.owner], j.at;
            var r := RecordOf(c.scope, t.next, t.context);
            var out := if r.None? then Outcome(w.slot, false) else Advance(w.slot, Holds(w, t.prior.key), r.value, fault);
            AdvancedStep(w, j, fault) == Resume(Store(w, out.slot), j, AfterAdvance(c, t.epoch, t.prior, t.next, t.why, out.ok))
  {
    hide RecordOf, Advance, AfterAdvance, Resume, Write;
  }

  lemma AdvancedSlotTrue(w: World, t: Task, scope: Scope, fault: Fault, e: Entries)
    requires t.Advancing? && !t.next.command.Upload? && SlotTrue(w, e) && RecordOf(scope, t.next, t.context).Some?
    ensures var m := Store(w, Advance(w.slot, Holds(w, t.prior.key), RecordOf(scope, t.next, t.context).value, fault).slot);
            SlotTrue(m, e) && m.controllers == w.controllers && m.jobs == w.jobs
            && m.log.made == w.log.made && m.issued == w.issued
  {
    hide Filed;
  }

  lemma AdvancedSegmentTrue(e: Entries, c: Controller, t: Task, ok: bool)
    requires t.Advancing? && !t.next.command.Upload?
    ensures var s := AfterAdvance(c, t.epoch, t.prior, t.next, t.why, ok); SegmentTrue(e, c, s) && s.c.scope == c.scope
  {
  }

  lemma ClearedTrue(w: World, j: Job, fault: Fault, unlinked: bool, e: Entries)
    requires Truthful(w, e) && Waiting(w, j) && (j.at.Clearing? || j.at.Expiring?)
    ensures Truthful(ClearedStep(w, j, fault, unlinked), e)
  {
    var c := w.controllers[j.owner];
    var m := Cleaned(w, j, fault, unlinked);
    var s := Segment(ClearedController(c, j.at), None);
    ClearedWorld(w, j, fault, unlinked);
    assert SegmentTrue(e, c, s) && s.c.scope == c.scope;
    assert SlotTrue(m, e) && m.log.made == w.log.made;
    hide ClearedStep, Cleaned, ClearedController, Resume, SegmentTrue, AllOwnTrue;
    SameMade(w, m, e);
    ResumeTrue(w, m, j, s, e);
  }

  lemma LoadedTrue(w: World, j: Job, load: Load, e: Entries)
    requires Truthful(w, e) && Waiting(w, j) && j.at.Loading?
    ensures Truthful(Effect(w, LoadDone(j, load)), e)
  {
    var s := Segment(AfterLoad(w.controllers[j.owner], j.at.epoch, load), None);
    assert Effect(w, LoadDone(j, load)) == Resume(w, j, s) by { hide AfterLoad, Resume; }
    assert SegmentTrue(e, w.controllers[j.owner], s) && s.c.scope == w.controllers[j.owner].scope;
    hide Effect, Resume, AfterLoad, SegmentTrue;
    ResumeTrue(w, w, j, s, e);
  }

  lemma ResumedTrue(w: World, j: Job, listsLoaded: bool, e: Entries)
    requires Truthful(w, e) && Waiting(w, j) && j.at.Resuming?
    ensures Truthful(Effect(w, Resumed(j, listsLoaded)), e)
  {
    var c := w.controllers[j.owner];
    var s := Segment(AfterResume(c, j.at.intent, listsLoaded), None);
    ResumedEffect(w, j, listsLoaded);
    if c.scope.Incidents? { JobTrue(w, j, e); }
    assert s.c.scope == c.scope && (c.scope.Incidents? ==> SegmentTrue(e, c, s));
    hide Effect, Resume, AfterResume, SegmentTrue;
    ResumeTrue(w, w, j, s, e);
  }

  function RestoredSegmentOf(w: World, c: Controller, fault: Fault): Segment {
    var found := Found(w, c.scope);
    if fault.NotApplied? || found.Err? then Segment(c, None) else AfterRestore(c, found.value)
  }

  /** A restore replaces the snapshot; nothing else of this controller is waiting then. */
  lemma RestoredTrue(w: World, j: Job, fault: Fault, e: Entries)
    requires Inv(w) && Tidy(w) && Truthful(w, e) && Waiting(w, j) && j.at.Restoring?
    ensures Truthful(RestoredStep(w, j, fault), e)
  {
    var c := w.controllers[j.owner];
    var s := RestoredSegmentOf(w, c, fault);
    RestoredIs(w, j, fault);
    var n := Resume(w, j, s);
    hide Inv, Tidy, RestoredStep, RestoredSegmentOf, Resume, OwnTrue, OnlyMoves, MadeTrue, SlotTrue;
    ResumeMoves(w, w, j, s);
    if c.scope.Incidents? { RestoredIncident(w, j, fault, e); }
    hide AllOwnTrue;
    OthersTrue(w, n, j.owner, e);
    SameMade(w, n, e);
    SameSlot(w, n, e);
  }

  lemma RestoredIs(w: World, j: Job, fault: Fault)
    requires Waiting(w, j) && j.at.Restoring?
    ensures var s := RestoredSegmentOf(w, w.controllers[j.owner], fault);
            RestoredStep(w, j, fault) == Resume(w, j, s) && s.c.scope == w.controllers[j.owner].scope
  {
    hide Found, Resume;
  }

  lemma SameSlot(w: World, n: World, e: Entries)
    requires SlotTrue(w, e) && n.slot == w.slot
    ensures SlotTrue(n, e)
  {
  }

  lemma RestoredIncident(w: World, j: Job, fault: Fault, e: Entries)
    requires Inv(w) && Tidy(w) && Truthful(w, e) && Waiting(w, j) && j.at.Restoring? && Incident(w, j.owner)
    ensures var n := Resume(w, j, RestoredSegmentOf(w, w.controllers[j.owner], fault));
            j.owner in n.controllers && OwnTrue(n, e, j.owner)
  {
    var c := w.controllers[j.owner];
    var s := RestoredSegmentOf(w, c, fault);
    hide Inv, Tidy, AllOwnTrue, MadeTrue;
    SoleRestore(w, j);
    FoundUpload(w);
    RestoredOwn(w, c, Found(w, Incidents), fault, s, e);
    QuietNow(w, j, s);
    assert Resume(w, j, s).controllers[j.owner] == s.c;
    hide *;
    OnlyWaiting(Resume(w, j, s), j.owner, s, e);
  }

  lemma OnlyWaiting(n: World, id: nat, s: Segment, e: Entries)
    requires id in n.controllers && n.controllers[id] == s.c && LocalTrue(e, s.c)
    requires forall k :: k in n.jobs && k.owner == id ==> k.at.Loading? || (s.wait.Some? && k.at == s.wait.value)
    requires s.wait.Some? ==> TaskTrue(e, s.c, s.wait.value)
    ensures OwnTrue(n, e, id)
  {
    hide LocalTrue, SnapTrue, ContextTrue;
  }

  lemma SoleRestore(w: World, j: Job)
    requires Inv(w) && Tidy(w) && Waiting(w, j) && j.at.Restoring? && Incident(w, j.owner)
    ensures w.controllers[j.owner].intent.None? && Quiet(w.(jobs := w.jobs - multiset{j}), j.owner)
  {
    OwnCommand(w, j);
    LiveByJob(w, j);
    NowQuiet(w, j);
    hide Inv, Tidy, Quiet;
  }

  lemma FoundUpload(w: World)
    requires Inv(w)
    ensures var found := Found(w, Incidents);
            found.Ok? && found.value.Some? && found.value.value.0.command.Upload? ==>
              found.value.value.1.Some? && w.slot.value.command.None?
  {
    assert SlotOk(w);
    hide ControllersOk, JobsOk, HistoryOk;
  }

  lemma QuietNow(w: World, j: Job, s: Segment)
    requires Waiting(w, j) && Quiet(w.(jobs := w.jobs - multiset{j}), j.owner)
    ensures forall k :: k in Resume(w, j, s).jobs && k.owner == j.owner ==> k.at.Loading? || (s.wait.Some? && k.at == s.wait.value)
  {
    var rest := w.(jobs := w.jobs - multiset{j});
    forall k | k in Resume(w, j, s).jobs && k.owner == j.owner
      ensures k.at.Loading? || (s.wait.Some? && k.at == s.wait.value)
    {
      assert k in rest.jobs || (s.wait.Some? && k == Job(j.owner, s.wait.value));
    }
  }

  lemma RestoredOwn(w: World, c: Controller, found: Result<Option<(Intent, Option<Context>)>, ()>, fault: Fault, s: Segment, e: Entries)
    requires SlotTrue(w, e) && c.scope.Incidents? && c.intent.None? && found == Found(w, Incidents)
    requires s == if fault.NotApplied? || found.Err? then Segment(c, None) else AfterRestore(c, found.value)
    requires found.Ok? && found.value.Some? && found.value.value.0.command.Upload? ==> found.value.value.1.Some? && w.slot.value.command.None?
    ensures LocalTrue(e, s.c) && (s.wait.Some? ==> TaskTrue(e, s.c, s.wait.value))
  {
    hide Picture;
  }

  // Every disciplined step.

  lemma MountTrue(w: World, s: Step, e: Entries)
    requires Inv(w) && Truthful(w, e) && s.Mount?
    ensures Truthful(Effect(w, s), e)
  {
    if s.id !in w.controllers {
      NoJobsYet(w, s.id);
      hide Inv;
      var n := Effect(w, s);
      forall id | id in n.controllers && n.controllers[id].scope.Incidents?
        ensures OwnTrue(n, e, id)
      {
        if id != s.id { assert OwnTrue(w, e, id); }
      }
    }
  }

  lemma DeviceTrue(w: World, s: Step, e: Entries)
    requires Truthful(w, e) && (s.Issue? || s.Crash? || s.Cleanup?)
    ensures Truthful(Effect(w, s), e)
  {
    var n := Effect(w, s);
    forall id | id in n.controllers && n.controllers[id].scope.Incidents?
      ensures OwnTrue(n, e, id)
    {
      assert OwnTrue(w, e, id);
    }
  }

  lemma PressTrue(w: World, s: Step, e: Entries)
    requires Truthful(w, e) && Press(s) && Disciplined(w, s)
    ensures Truthful(Effect(w, s), Noted(e, w, s))
  {
    if s.id !in w.controllers {
      assert Effect(w, s) == w && Noted(e, w, s) == e;
    } else if s.ChoosePhoto? || s.DropPhoto? {
      PhotoPressTrue(w, s, e);
    } else if s.Request? {
      RequestTrue(w, s, e);
    } else if s.Report? {
      if Reports(w, s.id, s.key) { ReportTrue(w, s, e); } else { assert Effect(w, s) == w; }
    } else {
      LocalPress(w, s, e);
    }
    hide Effect, Truthful;
  }

  lemma JobStepTrue(w: World, s: Step, e: Entries)
    requires Inv(w) && Tidy(w) && Truthful(w, e) && JobStep(s) && Waiting(w, s.job)
    ensures Truthful(Effect(w, s), e)
  {
    hide Inv, Tidy, Truthful, Effect, SavedStep, RepliedStep, AdvancedStep, ClearedStep, RestoredStep;
    if !Suits(s) {
      Unsuited(w, s);
    } else {
      SuitedEffect(w, s);
      match s
      case Saved(j, fault) => SavedTrue(w, j, fault, e);
      case Replied(j, reply, open, key) => RepliedTrue(w, j, reply, open, key, e);
      case Advanced(j, fault) => AdvancedTrue(w, j, fault, e);
      case Cleared(j, fault, unlinked) => ClearedTrue(w, j, fault, unlinked, e);
      case Restored(j, fault) => RestoredTrue(w, j, fault, e);
      case Resumed(j, listsLoaded) => ResumedTrue(w, j, listsLoaded, e);
      case LoadDone(j, load) => LoadedTrue(w, j, load, e);
    }
  }

  lemma TruthNext(w: World, s: Step, e: Entries)
    requires Inv(w) && Tidy(w) && Disciplined(w, s) && Truthful(w, e)
    ensures Truthful(Next(w, s), Noted(e, w, s))
  {
    Unmarked(w, s);
    hide Inv, Tidy, Truthful, Respends, Overlaps, Crosses, Flagged;
    if Press(s) {
      hide Effect, Noted;
      PressTrue(w, s, e);
    } else if s.Mount? {
      hide Effect;
      MountTrue(w, s, e);
    } else if s.Issue? || s.Crash? || s.Cleanup? {
      hide Effect;
      DeviceTrue(w, s, e);
    } else if Waiting(w, s.job) {
      hide Effect;
      JobStepTrue(w, s, e);
    }
  }

  lemma {:induction false} TruthRun(steps: seq<Step>, k: nat)
    requires k <= |steps| && DisciplinedRun(steps)
    ensures Truthful(Before(steps, k), Entered(steps[..k]))
  {
    hide Inv, Tidy, Truthful, Next;
    if k == 0 {
      NothingYet(steps);
      assert steps[..0] == [];
      assert Truthful(BOOT, map[]) by { FirstTrue(); }
    } else {
      TruthRun(steps, k - 1);
      TidyRun(steps, k - 1);
      EveryRunKeeps(steps[..k - 1]);
      assert DisciplinedAt(steps, k - 1);
      BeforeNext(steps, k - 1);
      assert steps[..k][..k - 1] == steps[..k - 1];
      hide Noted, Disciplined, Run;
      TruthNext(Before(steps, k - 1), steps[k - 1], Entered(steps[..k - 1]));
    }
  }

  lemma FirstTrue()
    ensures Truthful(BOOT, map[])
  {
  }

  /** Step `k` is the press of report for this upload. */
  predicate BegunAt(steps: seq<Step>, k: nat, upload: Key)
    requires k < |steps|
  {
    steps[k].Report? && steps[k].key == upload && Reports(Before(steps, k), steps[k].id, upload)
  }

  /** The screen the step was pressed on. */
  function ScreenAt(steps: seq<Step>, k: nat): Controller
    requires k < |steps| && steps[k].Report? && steps[k].id in Before(steps, k).controllers
  {
    Before(steps, k).controllers[steps[k].id]
  }

  predicate EnteredAt(steps: seq<Step>, k: nat, upload: Key, x: Entry)
    requires k < |steps|
  {
    BegunAt(steps, k, upload) && x == Entry(ScreenAt(steps, k).orderId, ScreenAt(steps, k).draft)
  }

  lemma {:induction false} EnteredTells(steps: seq<Step>, k: nat, upload: Key)
    requires k <= |steps| && upload in Entered(steps[..k])
    ensures exists m :: 0 <= m < k && EnteredAt(steps, m, upload, Entered(steps[..k])[upload])
  {
    hide Run;
    if k > 0 {
      assert steps[..k][..k - 1] == steps[..k - 1] && steps[..k][k - 1] == steps[k - 1];
      var was, w, s := Entered(steps[..k - 1]), Before(steps, k - 1), steps[k - 1];
      assert Entered(steps[..k]) == Noted(was, w, s);
      hide Reports;
      if s.Report? && Reports(w, s.id, s.key) && s.key == upload {
        assert EnteredAt(steps, k - 1, upload, Entered(steps[..k])[upload]);
      } else {
        EnteredTells(steps, k - 1, upload);
      }
    }
  }

  /** Step `k` is a press of report for the upload, with this on screen. */
  predicate ShownAt(steps: seq<Step>, k: nat, upload: Key, order: nat, claim: Claim)
    requires k < |steps|
  {
    BegunAt(steps, k, upload) && ScreenAt(steps, k).orderId == Some(order) && ScreenAt(steps, k).draft.claim == claim
  }

  predicate PicturedAt(steps: seq<Step>, k: nat, upload: Key, base64: nat)
    requires k < |steps|
  {
    BegunAt(steps, k, upload) && ScreenAt(steps, k).draft.photo.Some?
    && ScreenAt(steps, k).draft.photo.value.base64 == Some(base64)
  }

  /** Every report that is ever posted names evidence of an upload, and says the order and the
      claim that were on screen when the buyer pressed report for that upload. */
  lemma ReportsSayWhatWasEntered(steps: seq<Step>, i: Intent)
    requires DisciplinedRun(steps) && i in Run(BOOT, steps).log.posted && i.command.Report?
    ensures var w := Run(BOOT, steps);
            && i.command.evidence in w.issued
            && exists k :: 0 <= k < |steps| && ShownAt(steps, k, w.issued[i.command.evidence], i.command.order, i.command.claim)
  {
    var w := Run(BOOT, steps);
    EveryRunKeeps(steps);
    TruthRun(steps, |steps|);
    WholeRun(steps);
    assert steps[..|steps|] == steps;
    hide *;
    PostedReportTrue(w, Entered(steps), i);
    ShownSomewhere(steps, w.issued[i.command.evidence], i.command.order, i.command.claim);
  }

  lemma PostedReportTrue(w: World, e: Entries, i: Intent)
    requires Inv(w) && Truthful(w, e) && i in w.log.posted && i.command.Report?
    ensures i.command.evidence in w.issued && Filed(e, Some(i.command.order), i.command.claim, w.issued[i.command.evidence])
  {
    PostedMade(w, i);
    hide Inv, AllOwnTrue, SlotTrue;
    assert MadeTrue(w, e);
  }

  lemma ShownSomewhere(steps: seq<Step>, upload: Key, order: nat, claim: Claim)
    requires Filed(Entered(steps), Some(order), claim, upload)
    ensures exists k :: 0 <= k < |steps| && ShownAt(steps, k, upload, order, claim)
  {
    var e := Entered(steps);
    assert steps[..|steps|] == steps;
    EnteredTells(steps, |steps|, upload);
    hide Entered, BegunAt;
    var k :| 0 <= k < |steps| && EnteredAt(steps, k, upload, e[upload]);
    assert ShownAt(steps, k, upload, order, claim);
  }

  lemma PostedMade(w: World, i: Intent)
    requires Inv(w) && i in w.log.posted && !i.command.Upload?
    ensures i.key in w.log.made && w.log.made[i.key] == i.command
  {
    assert IntentOk(w, i);
    hide ControllersOk, JobsOk, SlotOk;
  }

  lemma PostedUpload(w: World, i: Intent)
    requires Inv(w) && i in w.log.posted && i.command.Upload? && !w.log.overlapped
    ensures i.key in w.log.made && w.log.made[i.key] == i.command
  {
    assert IntentOk(w, i) && MarksOk(w);
    hide ControllersOk, JobsOk, SlotOk;
  }

  /** Every upload that is ever posted carries the picture that was on screen at its press. */
  lemma UploadsShowThePicture(steps: seq<Step>, i: Intent)
    requires DisciplinedRun(steps) && i in Run(BOOT, steps).log.posted && i.command.Upload?
    ensures exists k :: 0 <= k < |steps| && PicturedAt(steps, k, i.key, i.command.base64)
  {
    var w := Run(BOOT, steps);
    EveryRunKeeps(steps);
    TruthRun(steps, |steps|);
    TidyRun(steps, |steps|);
    WholeRun(steps);
    assert steps[..|steps|] == steps;
    assert !w.log.overlapped;
    hide Run, Before, DisciplinedRun, Tidy;
    PostedUpload(w, i);
    var e := Entered(steps);
    assert MadeTrue(w, e);
    EnteredTells(steps, |steps|, i.key);
    var k :| 0 <= k < |steps| && EnteredAt(steps, k, i.key, e[i.key]);
    assert PicturedAt(steps, k, i.key, i.command.base64);
  }
}
