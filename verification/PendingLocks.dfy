/**
 The lock of a controller. On every screen but the cart, which also unlocks by itself, a
 controller is locked exactly while one command of it is under way, so no run sends two
 commands of one controller at once and no run leaves a controller locked for ever.
 */
module PendingLocks {
  import opened Wrappers
  import opened PendingSlot
  import opened PendingController
  import opened PendingWorld
  import opened PendingInvariants
  import opened PendingPreservation
  import opened PendingSerial

  /** The method is between the start of a retry and its end. */
  predicate UnderWay(t: Task) {
    t.Saving? || t.Posting? || t.Advancing? || t.Clearing?
  }

  predicate Own(w: World, id: nat, j: Job) {
    j in w.jobs && j.owner == id && UnderWay(j.at)
  }

  ghost predicate LockOk(w: World, id: nat)
    requires id in w.controllers
  {
    && (w.controllers[id].locked <==> exists j :: Own(w, id, j))
    && (forall j, k :: Own(w, id, j) && Own(w, id, k) ==> j == k && w.jobs[j] == 1)
  }

  ghost predicate LocksOk(w: World) {
    forall id :: id in w.controllers && w.controllers[id].scope != Cart ==> LockOk(w, id)
  }

  /** The segment takes the lock when it starts a command, and otherwise leaves it. */
  predicate TakesLock(c: Controller, s: Segment) {
    if s.wait.Some? && UnderWay(s.wait.value) then !c.locked && s.c.locked else s.c.locked == c.locked
  }

  /** The segment goes on with the command under the lock, or ends it and unlocks. */
  predicate PassesLock(s: Segment) {
    s.c.locked <==> s.wait.Some? && UnderWay(s.wait.value)
  }

  lemma GoLock(w: World, id: nat, s: Segment)
    requires id in w.controllers && LockOk(w, id) && TakesLock(w.controllers[id], s)
    ensures LockOk(Go(w, id, s), id)
  {
    var n := Go(w, id, s);
    if s.wait.Some? {
      var k := Job(id, s.wait.value);
      forall j: Job ensures n.jobs[j] == w.jobs[j] + (if j == k then 1 else 0) {}
      if UnderWay(s.wait.value) {
        assert !Own(w, id, k);
        assert Own(n, id, k);
        forall j | Own(n, id, j) ensures j == k || Own(w, id, j) {}
      } else {
        forall j ensures Own(n, id, j) <==> Own(w, id, j) {}
      }
    } else {
      forall j ensures Own(n, id, j) <==> Own(w, id, j) {}
    }
    hide UnderWay;
  }

  /** A method that is not under way goes away. */
  lemma GoneLock(w: World, j: Job)
    requires j.owner in w.controllers && LockOk(w, j.owner) && j in w.jobs && !UnderWay(j.at)
    ensures LockOk(w.(jobs := w.jobs - multiset{j}), j.owner)
  {
    var n := w.(jobs := w.jobs - multiset{j});
    forall k: Job | k != j ensures n.jobs[k] == w.jobs[k] {}
    forall k ensures Own(n, j.owner, k) <==> Own(w, j.owner, k) {}
    hide UnderWay;
  }

  /** The command under way takes its next step. */
  lemma PassLock(w: World, j: Job, s: Segment)
    requires Waiting(w, j) && LockOk(w, j.owner) && UnderWay(j.at) && PassesLock(s)
    ensures LockOk(Resume(w, j, s), j.owner)
  {
    var n, id := Resume(w, j, s), j.owner;
    assert Own(w, id, j) && w.jobs[j] == 1;
    if s.wait.Some? {
      var k := Job(id, s.wait.value);
      forall i: Job ensures n.jobs[i] == w.jobs[i] - (if i == j then 1 else 0) + (if i == k then 1 else 0) {}
      forall i | Own(n, id, i) ensures i == k || Own(w, id, i) {}
      assert k in w.jobs && UnderWay(k.at) ==> Own(w, id, k);
      if UnderWay(k.at) { assert Own(n, id, k); }
    } else {
      forall i: Job ensures n.jobs[i] == w.jobs[i] - (if i == j then 1 else 0) {}
      forall i | Own(n, id, i) ensures Own(w, id, i) {}
    }
    hide UnderWay;
  }

  lemma ResumeLock(w: World, j: Job, s: Segment)
    requires Waiting(w, j) && LockOk(w, j.owner)
    requires if UnderWay(j.at) then PassesLock(s)
             else TakesLock(w.controllers[j.owner], s) && !(s.wait.Some? && UnderWay(s.wait.value))
    ensures LockOk(Resume(w, j, s), j.owner)
  {
    hide UnderWay, LockOk;
    if UnderWay(j.at) {
      PassLock(w, j, s);
    } else {
      GoneLock(w, j);
      GoLock(w.(jobs := w.jobs - multiset{j}), j.owner, s);
    }
  }

  /** The other controllers keep their locks and methods. */
  lemma OtherLocks(w: World, n: World, id: nat)
    requires LocksOk(w) && id in n.controllers && (n.controllers[id].scope != Cart ==> LockOk(n, id))
    requires n.controllers.Keys == w.controllers.Keys + {id}
    requires forall i :: i in w.controllers && i != id ==> n.controllers[i] == w.controllers[i]
    requires forall j: Job :: j.owner != id ==> n.jobs[j] == w.jobs[j]
    ensures LocksOk(n)
  {
    forall i | i in n.controllers && n.controllers[i].scope != Cart
      ensures LockOk(n, i)
    {
      if i != id {
        forall j: Job | j.owner == i ensures j in n.jobs <==> j in w.jobs {}
        forall j ensures Own(n, i, j) <==> Own(w, i, j) {}
        assert LockOk(w, i);
      }
    }
  }

  lemma GoLocks(w: World, m: World, id: nat, s: Segment)
    requires LocksOk(w) && id in w.controllers && m.controllers == w.controllers && m.jobs == w.jobs
    requires s.c.scope == w.controllers[id].scope
    requires s.c.scope != Cart ==> TakesLock(w.controllers[id], s)
    ensures LocksOk(Go(m, id, s))
  {
    var n := Go(m, id, s);
    if s.c.scope != Cart {
      SameLock(w, m, id);
      GoLock(m, id, s);
    }
    hide LockOk, TakesLock;
    OtherLocks(w, n, id);
  }

  lemma SameLock(w: World, m: World, id: nat)
    requires id in w.controllers && m.controllers == w.controllers && m.jobs == w.jobs
    ensures LockOk(m, id) == LockOk(w, id)
  {
    forall j ensures Own(m, id, j) <==> Own(w, id, j) {}
  }

  lemma ResumeLocks(w: World, m: World, j: Job, s: Segment)
    requires LocksOk(w) && Waiting(w, j) && m.controllers == w.controllers && m.jobs == w.jobs
    requires s.c.scope == w.controllers[j.owner].scope
    requires s.c.scope != Cart ==>
               if UnderWay(j.at) then PassesLock(s)
               else TakesLock(w.controllers[j.owner], s) && !(s.wait.Some? && UnderWay(s.wait.value))
    ensures LocksOk(Resume(m, j, s))
  {
    var n := Resume(m, j, s);
    if s.c.scope != Cart {
      SameLock(w, m, j.owner);
      ResumeLock(m, j, s);
    }
    hide LockOk, TakesLock, PassesLock;
    OtherLocks(w, n, j.owner);
  }

  // Steps.

  lemma PressLocks(w: World, s: Step)
    requires LocksOk(w) && Press(s) && s.id in w.controllers
    ensures LocksOk(Effect(w, s))
  {
    hide LocksOk;
    if Effect(w, s) != w {
      var c := w.controllers[s.id];
      var m := Effect(w, s).(controllers := w.controllers, jobs := w.jobs);
      var seg := Pressed(c, s);
      assert Effect(w, s) == Go(m, s.id, seg) by { hide Dropped, SetPhoto, ContextOf; }
      assert seg.c.scope == c.scope && (c.scope != Cart ==> TakesLock(c, seg)) by { hide Effect; }
      hide Effect, Pressed, TakesLock;
      GoLocks(w, m, s.id, seg);
    }
  }

  function Pressed(c: Controller, s: Step): Segment
    requires Press(s)
  {
    match s
    case Start(_) => PendingController.Start(c)
    case Stop(_) => Segment(PendingController.Stop(c), None)
    case Refresh(_) => PendingController.Refresh(c)
    case Unlock(_) => Segment(if c.scope.Cart? then c.(locked := false) else c, None)
    case SetClaim(_, claim) => Segment(PendingController.SetClaim(c, claim), None)
    case ChoosePhoto(_, uri, base64) => Segment(SetPhoto(c, Some(Photo(uri, Some(base64)))), None)
    case DropPhoto(_) => Segment(SetPhoto(c, None), None)
    case Report(_, key) => if CanReport(c, true) then Segment(BeginReport(c, key), None) else Segment(c, None)
    case Request(_, key, request) => if Editable(c) then Segment(BeginRequest(c, key, request), None) else Segment(c, None)
    case Retry(_, open) => PendingController.Retry(c, open)
  }

  lemma StoreMoves(w: World, slot: Option<Record>, i: Intent)
    ensures var m := Store(w, slot); m.controllers == w.controllers && m.jobs == w.jobs
    ensures Post(w, i).controllers == w.controllers && Post(w, i).jobs == w.jobs
  {
  }

  lemma SavedLocks(w: World, j: Job, fault: Fault)
    requires LocksOk(w) && Waiting(w, j) && j.at.Saving?
    requires w.controllers[j.owner].scope != Cart ==> w.controllers[j.owner].locked
    ensures LocksOk(SavedStep(w, j, fault))
  {
    hide LocksOk;
    var c, i := w.controllers[j.owner], j.at.intent;
    var r := ToSave(w, j);
    var ok := r.Some? && Save(w.slot, r.value, fault).ok;
    var m := if r.None? then w else Store(w, Save(w.slot, r.value, fault).slot);
    var n := if ok then Post(m, i) else m;
    var s := AfterSave(c, j.at.epoch, i, ok);
    assert SavedStep(w, j, fault) == Resume(n, j, s) by { hide ToSave, Save, Store, Post, AfterSave, Resume; }
    assert s.c.scope == c.scope && (c.scope != Cart ==> PassesLock(s));
    if r.Some? { StoreMoves(w, Save(w.slot, r.value, fault).slot, i); }
    StoreMoves(m, m.slot, i);
    hide SavedStep, ToSave, Save, Store, Post, AfterSave, Resume, PassesLock;
    ResumeLocks(w, n, j, s);
  }

  lemma RepliedLocks(w: World, j: Job, reply: Reply, open: bool, key: Key)
    requires LocksOk(w) && Waiting(w, j) && j.at.Posting?
    requires w.controllers[j.owner].scope != Cart ==> w.controllers[j.owner].locked
    ensures LocksOk(RepliedStep(w, j, reply, open, key))
  {
    var c, i := w.controllers[j.owner], j.at.intent;
    if ReplyFits(w, i, reply) && key !in w.log.made {
      var heard := if Settles(c, j.at.epoch, i, reply) then Hear(w, i.key) else w;
      var next := FollowUp(c, i, reply, open, key);
      var m := if next.Some? then Make(heard, next.value) else heard;
      var s := AfterReply(c, j.at.epoch, i, reply, open, key);
      assert RepliedStep(w, j, reply, open, key) == Resume(m, j, s) by { hide FollowUp, AfterReply, Resume; }
      assert s.c.scope == c.scope && (c.scope != Cart ==> PassesLock(s)) by { hide FollowUp, ContextOf, Settles; }
      hide RepliedStep, FollowUp, AfterReply, Resume, PassesLock, LocksOk, Settles;
      ResumeLocks(w, m, j, s);
    }
  }

  lemma AdvancedLocks(w: World, j: Job, fault: Fault)
    requires LocksOk(w) && Waiting(w, j) && j.at.Advancing?
    requires w.controllers[j.owner].scope != Cart ==> w.controllers[j.owner].locked
    ensures LocksOk(AdvancedStep(w, j, fault))
  {
    hide LocksOk;
    var c, t := w.controllers[j.owner], j.at;
    var r := RecordOf(c.scope, t.next, t.context);
    var out := if r.None? then Outcome(w.slot, false) else Advance(w.slot, Holds(w, t.prior.key), r.value, fault);
    var m := Store(w, out.slot);
    var s := AfterAdvance(c, t.epoch, t.prior, t.next, t.why, out.ok);
    assert AdvancedStep(w, j, fault) == Resume(m, j, s) by { hide RecordOf, Advance, Store, AfterAdvance, Resume; }
    assert s.c.scope == c.scope && (c.scope != Cart ==> PassesLock(s)) by { hide RecordOf, Advance, Store, Resume; }
    StoreMoves(w, out.slot, t.next);
    hide AdvancedStep, Advance, Store, RecordOf, AfterAdvance, Resume, PassesLock;
    ResumeLocks(w, m, j, s);
  }

  lemma ClearedLocks(w: World, j: Job, fault: Fault, unlinked: bool)
    requires LocksOk(w) && Waiting(w, j) && (j.at.Clearing? || j.at.Expiring?)
    ensures LocksOk(ClearedStep(w, j, fault, unlinked))
  {
    var c := w.controllers[j.owner];
    var m := Cleaned(w, j, fault, unlinked);
    var s := Segment(ClearedController(c, j.at), None);
    ClearedWorld(w, j, fault, unlinked);
    assert s.c.scope == c.scope && (if j.at.Clearing? then PassesLock(s) else TakesLock(c, s));
    hide ClearedStep, Cleaned, ClearedController, Resume, PassesLock, TakesLock, LocksOk;
    ResumeLocks(w, m, j, s);
  }

  // Restores, resumes and loads do not touch the lock.

  lemma RestoredLocks(w: World, j: Job, fault: Fault)
    requires LocksOk(w) && Waiting(w, j) && j.at.Restoring?
    ensures LocksOk(RestoredStep(w, j, fault))
  {
    hide LocksOk;
    var c := w.controllers[j.owner];
    var found := Found(w, c.scope);
    var s := if fault.NotApplied? || found.Err? then Segment(c, None) else AfterRestore(c, found.value);
    assert RestoredStep(w, j, fault) == Resume(w, j, s) by { hide Found, AfterRestore, Resume; }
    assert s.c.scope == c.scope && TakesLock(c, s) && !(s.wait.Some? && UnderWay(s.wait.value)) by { hide Found; }
    hide RestoredStep, Found, AfterRestore, Resume, TakesLock;
    ResumeLocks(w, w, j, s);
  }

  lemma ResumedLocks(w: World, j: Job, listsLoaded: bool)
    requires LocksOk(w) && Waiting(w, j) && j.at.Resuming?
    ensures LocksOk(Effect(w, Resumed(j, listsLoaded)))
  {
    hide LocksOk;
    ResumedEffect(w, j, listsLoaded);
    var s := Segment(AfterResume(w.controllers[j.owner], j.at.intent, listsLoaded), None);
    assert s.c.scope == w.controllers[j.owner].scope && TakesLock(w.controllers[j.owner], s) by { hide Effect; }
    hide Effect, AfterResume, Resume, TakesLock;
    ResumeLocks(w, w, j, s);
  }

  lemma LoadedLocks(w: World, j: Job, load: Load)
    requires LocksOk(w) && Waiting(w, j) && j.at.Loading?
    ensures LocksOk(Effect(w, LoadDone(j, load)))
  {
    hide LocksOk;
    var s := Segment(AfterLoad(w.controllers[j.owner], j.at.epoch, load), None);
    assert Effect(w, LoadDone(j, load)) == Resume(w, j, s) by { hide AfterLoad, Resume; }
    assert s.c.scope == w.controllers[j.owner].scope && TakesLock(w.controllers[j.owner], s) by { hide Effect; }
    hide Effect, AfterLoad, Resume, TakesLock;
    ResumeLocks(w, w, j, s);
  }

  lemma LockedNow(w: World, j: Job)
    requires LocksOk(w) && Waiting(w, j) && UnderWay(j.at)
    ensures w.controllers[j.owner].scope != Cart ==> w.controllers[j.owner].locked
  {
    if w.controllers[j.owner].scope != Cart {
      assert LockOk(w, j.owner) && Own(w, j.owner, j);
    }
  }

  lemma MountLocks(w: World, s: Step)
    requires Inv(w) && LocksOk(w) && s.Mount?
    ensures LocksOk(Effect(w, s))
  {
    if s.id !in w.controllers {
      NoJobsYet(w, s.id);
      hide Inv;
      var n := Effect(w, s);
      assert forall j :: !Own(n, s.id, j);
      hide UnderWay;
      OtherLocks(w, n, s.id);
    }
  }

  lemma DeviceLocks(w: World, s: Step)
    requires LocksOk(w) && (s.Issue? || s.Crash? || s.Cleanup?)
    ensures LocksOk(Effect(w, s))
  {
    var n := Effect(w, s);
    if !s.Crash? {
      assert n.controllers == w.controllers && n.jobs == w.jobs;
      hide Effect, LockOk;
      forall id | id in n.controllers && n.controllers[id].scope != Cart ensures LockOk(n, id) { SameLock(w, n, id); }
    }
  }

  lemma JobLocks(w: World, s: Step)
    requires LocksOk(w) && JobStep(s) && Waiting(w, s.job)
    ensures LocksOk(Effect(w, s))
  {
    if !Suits(s) {
      Unsuited(w, s);
    } else {
      SuitedEffect(w, s);
      if UnderWay(s.job.at) { LockedNow(w, s.job); }
      hide Suits, Own, Effect, SavedStep, RepliedStep, AdvancedStep, ClearedStep, RestoredStep, LocksOk;
      match s
      case Saved(j, fault) => SavedLocks(w, j, fault);
      case Replied(j, reply, open, key) => RepliedLocks(w, j, reply, open, key);
      case Advanced(j, fault) => AdvancedLocks(w, j, fault);
      case Cleared(j, fault, unlinked) => ClearedLocks(w, j, fault, unlinked);
      case Restored(j, fault) => RestoredLocks(w, j, fault);
      case Resumed(j, listsLoaded) => ResumedLocks(w, j, listsLoaded);
      case LoadDone(j, load) => LoadedLocks(w, j, load);
    }
  }

  lemma EffectLocks(w: World, s: Step)
    requires Inv(w) && LocksOk(w)
    ensures LocksOk(Effect(w, s))
  {
    hide *;
    if s.Mount? {
      MountLocks(w, s);
    } else if s.Issue? || s.Crash? || s.Cleanup? {
      DeviceLocks(w, s);
    } else {
      MovingLocks(w, s);
    }
  }

  /** A press or a waiting method's step. */
  lemma MovingLocks(w: World, s: Step)
    requires Inv(w) && LocksOk(w) && !s.Mount? && !s.Issue? && !s.Crash? && !s.Cleanup?
    ensures LocksOk(Effect(w, s))
  {
    hide Inv, LocksOk, Effect, Suits;
    if Press(s) {
      if s.id in w.controllers { PressLocks(w, s); } else { NotThere(w, s); }
    } else {
      if Waiting(w, s.job) { JobLocks(w, s); } else { NotThere(w, s); }
    }
  }

  lemma NextLocks(w: World, s: Step)
    requires Inv(w) && LocksOk(w)
    ensures LocksOk(Next(w, s))
  {
    FlagKeeps(w, s);
    FlaggedLocks(w, s);
    hide Inv, LocksOk, Flagged, Effect, Overlaps, Crosses, Respends;
    EffectLocks(Flagged(w, s), s);
  }

  lemma NotThere(w: World, s: Step)
    requires if JobStep(s) then !Waiting(w, s.job) else Press(s) && s.id !in w.controllers
    ensures Effect(w, s) == w
  {
  }

  lemma FlaggedLocks(w: World, s: Step)
    requires LocksOk(w)
    ensures LocksOk(Flagged(w, s))
  {
    var n := Flagged(w, s);
    assert n.controllers == w.controllers && n.jobs == w.jobs;
    hide Flagged, LockOk;
    forall id | id in n.controllers && n.controllers[id].scope != Cart ensures LockOk(n, id) { SameLock(w, n, id); }
  }

  /** In every run, on every screen but the cart, a controller is locked exactly while one of its
      methods is between a retry and its end, and there is never a second one. */
  lemma {:induction false} OneUnderWay(steps: seq<Step>)
    ensures LocksOk(Run(BOOT, steps))
    decreases |steps|
  {
    if steps == [] {
    } else {
      var front := steps[..|steps| - 1];
      OneUnderWay(front);
      EveryRunKeeps(front);
      hide Inv, LocksOk, Next;
      NextLocks(Run(BOOT, front), steps[|steps| - 1]);
    }
  }
}
