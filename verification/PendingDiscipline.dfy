/**
 A discipline under which the promises that fail in general hold on every run, crashes and
 storage faults included. It counts a restore, a resume and an expiry as busy, which the
 screen does not do: the incidents screen is opened only when every earlier controller of it
 has been stopped and waits for nothing but lists, and its buttons work only while its own
 controller is on screen and waits for nothing but lists.
 */
module PendingDiscipline {
  import opened Wrappers
  import opened PendingSlot
  import opened PendingController
  import opened PendingWorld
  import opened PendingInvariants
  import opened PendingPreservation
  import opened PendingHistory
  import opened PendingTheorems

  /** The controller waits for nothing but lists. */
  predicate Quiet(w: World, id: nat) {
    forall j :: j in w.jobs && j.owner == id ==> j.at.Loading?
  }

  predicate Incident(w: World, id: nat) {
    id in w.controllers && w.controllers[id].scope.Incidents?
  }

  /** It was stopped and has nothing left to do. */
  predicate Retired(w: World, id: nat)
    requires id in w.controllers
  {
    !w.controllers[id].active && w.controllers[id].epoch >= 1 && Quiet(w, id)
  }

  predicate Pressable(w: World, id: nat) {
    Incident(w, id) ==> w.controllers[id].active && Quiet(w, id)
  }

  /** What the app checks before a step. Only opening the incidents screen and pressing its
      buttons is restricted; answers, faults, crashes and the other screens are not. */
  predicate Disciplined(w: World, s: Step) {
    match s
    case Mount(_, scope, _) => scope.Incidents? ==> forall i :: i in w.controllers && Incident(w, i) ==> Retired(w, i)
    case Start(id) => Incident(w, id) ==> !w.controllers[id].active && w.controllers[id].epoch == 0
    case Refresh(id) => Pressable(w, id)
    case SetClaim(id, _) => Pressable(w, id)
    case ChoosePhoto(id, _, _) => Pressable(w, id)
    case DropPhoto(id) => Pressable(w, id)
    case Report(id, _) => Pressable(w, id)
    case Request(id, _, _) => Pressable(w, id)
    case Retry(id, _) => Pressable(w, id)
    case _ => true
  }

  predicate DisciplinedAt(steps: seq<Step>, k: nat)
    requires k < |steps|
  {
    Disciplined(Before(steps, k), steps[k])
  }

  predicate DisciplinedRun(steps: seq<Step>) {
    forall k :: 0 <= k < |steps| ==> DisciplinedAt(steps, k)
  }

  // What disciplined runs keep.

  /** An upload is held together with its snapshot and its loaded order. */
  predicate Grounded(c: Controller) {
    && (c.orderLoaded ==> c.orderId.Some?)
    && (c.intent.Some? && c.intent.value.command.Upload? ==>
        c.snapshot.Some? && c.snapshot.value.photo.Some? && c.orderId.Some? && c.orderLoaded)
  }

  /** An upload held although its evidence was reported cannot be saved: its report, which
      this controller never heard of, is in the slot. */
  predicate Guarded(w: World, c: Controller) {
    c.intent.Some? && c.intent.value.command.Upload? && Spent(w, c.intent.value.key) ==>
      w.slot.Some? && w.slot.value.command.Some? && w.slot.value.command.value.Report?
  }

  /** A waiting method works on the command the controller holds. */
  predicate TaskFits(w: World, c: Controller, t: Task) {
    match t
    case Restoring => c.intent.None?
    case Resuming(i) =>
      && c.intent.None?
      && (i.command.Upload? ==>
          Holds(w, i.key) && c.snapshot.Some? && c.snapshot.value.photo.Some? && c.orderId.Some?)
    case Advancing(_, prior, _, _, _) => c.intent == Some(prior)
    case Loading(_) => true
    case _ => c.intent == Some(t.intent)
  }

  /** At most one method waits for something other than lists. */
  predicate Serial(w: World, id: nat) {
    forall j, k :: j in w.jobs && k in w.jobs && j.owner == id && k.owner == id && !j.at.Loading? && !k.at.Loading? ==>
      j == k && w.jobs[j] == 1
  }

  predicate Ordered(w: World, id: nat)
    requires id in w.controllers
  {
    var c := w.controllers[id];
    && Grounded(c) && Serial(w, id)
    && (Retired(w, id) || Guarded(w, c))
    && (!c.active && c.epoch == 0 ==> c.intent.None? && Quiet(w, id))
    && (forall j :: j in w.jobs && j.owner == id ==> TaskFits(w, c, j.at))
  }

  predicate PlainTask(t: Task) {
    match t
    case Saving(_, i, _) => i.command.Plain?
    case Posting(_, i) => i.command.Plain?
    case Clearing(_, i, _) => i.command.Plain?
    case Restoring => true
    case Loading(_) => true
    case _ => false
  }

  /** The other screens never touch the incident chain. */
  predicate PlainOnly(w: World, id: nat)
    requires id in w.controllers
  {
    && (w.controllers[id].intent.Some? ==> w.controllers[id].intent.value.command.Plain?)
    && (forall j :: j in w.jobs && j.owner == id ==> PlainTask(j.at))
  }

  predicate PlainSlot(w: World) {
    w.slot.Some? && !w.slot.value.scope.Incidents? ==> w.slot.value.command.Some? && w.slot.value.command.value.Plain?
  }

  predicate OneLive(w: World) {
    forall i, k :: i in w.controllers && k in w.controllers && Incident(w, i) && Incident(w, k) && i != k ==>
      Retired(w, i) || Retired(w, k)
  }

  predicate AllOrdered(w: World) {
    forall id :: id in w.controllers ==> if w.controllers[id].scope.Incidents? then Ordered(w, id) else PlainOnly(w, id)
  }

  predicate Tidy(w: World) {
    && !w.log.overlapped && !w.log.respent && PlainSlot(w) && OneLive(w) && AllOrdered(w)
  }

  // A step of one controller, seen from the others.

  lemma QuietSame(w: World, n: World, id: nat)
    requires forall j: Job :: j.owner == id ==> n.jobs[j] == w.jobs[j]
    ensures Quiet(n, id) == Quiet(w, id)
    ensures forall j: Job :: j.owner == id ==> (j in n.jobs <==> j in w.jobs)
  {
    assert forall j: Job :: j.owner == id ==> (j in n.jobs <==> j in w.jobs);
  }

  lemma RetiredStays(w: World, n: World, id: nat)
    requires Incident(w, id) && Retired(w, id) && Ordered(w, id)
    requires id in n.controllers && n.controllers[id] == w.controllers[id]
    requires forall j: Job :: j.owner == id ==> n.jobs[j] == w.jobs[j]
    ensures Retired(n, id) && Ordered(n, id)
  {
    QuietSame(w, n, id);
    hide Grounded, Guarded;
  }

  lemma PlainStays(w: World, n: World, id: nat)
    requires id in w.controllers && PlainOnly(w, id)
    requires id in n.controllers && n.controllers[id] == w.controllers[id]
    requires forall j: Job :: j.owner == id ==> n.jobs[j] == w.jobs[j]
    ensures PlainOnly(n, id)
  {
    QuietSame(w, n, id);
  }

  ghost predicate OthersSame(w: World, n: World, id: nat) {
    && n.controllers.Keys == w.controllers.Keys + {id}
    && (forall i :: i in w.controllers && i != id ==> n.controllers[i] == w.controllers[i])
    && (forall j: Job :: j.owner != id ==> n.jobs[j] == w.jobs[j])
  }

  predicate OthersRetired(w: World, id: nat) {
    forall i :: i in w.controllers && Incident(w, i) && i != id ==> Retired(w, i)
  }

  /** The live incidents controller moves, together with the storage. */
  lemma LiveMoves(w: World, n: World, id: nat)
    requires Tidy(w) && OthersRetired(w, id) && OthersSame(w, n, id)
    requires n.controllers[id].scope.Incidents? && Ordered(n, id)
    requires !n.log.overlapped && !n.log.respent && PlainSlot(n)
    ensures Tidy(n)
  {
    hide Ordered, PlainOnly, Retired, PlainSlot;
    forall i | i in n.controllers && i != id
      ensures if n.controllers[i].scope.Incidents? then Ordered(n, i) && Retired(n, i) else PlainOnly(n, i)
    {
      assert i in w.controllers && n.controllers[i] == w.controllers[i];
      if w.controllers[i].scope.Incidents? {
        assert Incident(w, i);
        RetiredStays(w, n, i);
      } else {
        PlainStays(w, n, i);
      }
    }
  }

  /** Storage and server as the live controller depends on them: whatever is in the slot and
      is not a plain command stays, and no upload becomes a reported one. */
  ghost predicate Steady(w: World, n: World) {
    && (forall key :: Spent(n, key) ==> Spent(w, key))
    && (w.slot.Some? && !(w.slot.value.command.Some? && w.slot.value.command.value.Plain?) ==> n.slot == w.slot)
  }

  lemma UploadHeld(w: World, j: Job)
    requires Inv(w) && Waiting(w, j) && j.at.Resuming? && j.at.intent.command.Upload? && Holds(w, j.at.intent.key)
    ensures w.slot.value.command.None?
  {
    JobOf(w, j);
    assert SlotOk(w);
    hide Inv;
  }

  lemma FitsStays(w: World, n: World, j: Job)
    requires Inv(w) && Waiting(w, j) && Steady(w, n) && TaskFits(w, w.controllers[j.owner], j.at)
    ensures TaskFits(n, w.controllers[j.owner], j.at)
  {
    if j.at.Resuming? && j.at.intent.command.Upload? { UploadHeld(w, j); }
    hide Inv, Spent;
  }

  lemma GuardedStays(w: World, n: World, c: Controller)
    requires Steady(w, n)
    ensures Guarded(w, c) ==> Guarded(n, c)
  {
    hide Spent;
  }

  lemma OrderedMoves(w: World, n: World, id: nat)
    requires Inv(w) && Steady(w, n) && n.controllers == w.controllers && n.jobs == w.jobs
    requires id in w.controllers && Ordered(w, id)
    ensures Ordered(n, id)
  {
    GuardedStays(w, n, w.controllers[id]);
    hide Inv, Grounded, TaskFits, Steady, Guarded;
    forall j | j in n.jobs && j.owner == id ensures TaskFits(n, n.controllers[id], j.at) { FitsStays(w, n, j); }
  }

  /** Storage, server and history move; the controllers stay. */
  lemma StorageMoves(w: World, n: World)
    requires Inv(w) && Tidy(w) && Steady(w, n) && n.controllers == w.controllers && n.jobs == w.jobs
    requires !n.log.overlapped && !n.log.respent && PlainSlot(n)
    ensures Tidy(n)
  {
    forall id | id in n.controllers
      ensures if n.controllers[id].scope.Incidents? then Ordered(n, id) else PlainOnly(n, id)
    {
      if w.controllers[id].scope.Incidents? {
        assert Ordered(w, id);
        OrderedMoves(w, n, id);
      }
    }
    hide Ordered, PlainSlot, Inv, Steady;
  }

  /** A controller of another screen moves. */
  lemma PlainMoves(w: World, n: World, id: nat)
    requires Tidy(w) && OthersSame(w, n, id) && n.slot == w.slot && n.issued == w.issued && n.log == w.log
    requires !n.controllers[id].scope.Incidents? && PlainOnly(n, id) && !Incident(w, id)
    ensures Tidy(n)
  {
    hide Ordered, PlainOnly, Retired;
    forall i | i in n.controllers && i != id
      ensures if n.controllers[i].scope.Incidents? then Ordered(n, i) && (Retired(w, i) ==> Retired(n, i)) else PlainOnly(n, i)
    {
      assert i in w.controllers && n.controllers[i] == w.controllers[i];
      if w.controllers[i].scope.Incidents? { OrderedStays(w, n, i); } else { PlainStays(w, n, i); }
    }
  }

  lemma OrderedStays(w: World, n: World, id: nat)
    requires id in w.controllers && Ordered(w, id) && n.slot == w.slot && n.issued == w.issued && n.log == w.log
    requires id in n.controllers && n.controllers[id] == w.controllers[id]
    requires forall j: Job :: j.owner == id ==> n.jobs[j] == w.jobs[j]
    ensures Ordered(n, id) && (Retired(w, id) ==> Retired(n, id))
  {
    QuietSame(w, n, id);
    hide Grounded;
    assert Spent(n, 0) == Spent(w, 0);
  }

  // The live incidents controller.

  lemma SameStorage(w: World, n: World, c: Controller)
    requires n.slot == w.slot && n.issued == w.issued && n.log.reported == w.log.reported
    ensures Guarded(n, c) == Guarded(w, c)
    ensures forall t :: TaskFits(n, c, t) == TaskFits(w, c, t)
  {
    assert c.intent.Some? ==> Spent(n, c.intent.value.key) == Spent(w, c.intent.value.key);
  }

  lemma OnlyOne(w: World, id: nat, t: Task)
    requires Quiet(w, id)
    ensures Serial(w.(jobs := w.jobs + multiset{Job(id, t)}), id)
  {
    if !t.Loading? { assert Job(id, t) !in w.jobs; }
  }

  lemma QuietSerial(w: World, id: nat)
    requires Quiet(w, id)
    ensures Serial(w, id)
  {
  }

  lemma SerialSame(w: World, n: World, id: nat)
    requires n.jobs == w.jobs
    ensures Serial(n, id) == Serial(w, id)
  {
  }

  /** A press: nothing but lists was awaited. */
  lemma GoOrdered(w: World, id: nat, s: Segment)
    requires Incident(w, id) && Ordered(w, id) && Quiet(w, id)
    requires Grounded(s.c) && Guarded(w, s.c) && (s.c.active || s.c.epoch >= 1)
    requires s.wait.Some? ==> TaskFits(w, s.c, s.wait.value)
    ensures Ordered(Go(w, id, s), id)
  {
    var n := Go(w, id, s);
    if s.wait.Some? {
      OnlyOne(w, id, s.wait.value);
      SerialSame(w.(jobs := w.jobs + multiset{Job(id, s.wait.value)}), n, id);
    } else {
      QuietSerial(w, id);
      SerialSame(w, n, id);
    }
    SameStorage(w, n, s.c);
    hide Grounded, Guarded, Serial;
    forall j | j in n.jobs && j.owner == id ensures TaskFits(n, s.c, j.at) {
      if j in w.jobs { assert j.at.Loading?; }
    }
  }

  lemma PressKeeps(w: World, id: nat, s: Segment)
    requires Tidy(w) && Incident(w, id) && Quiet(w, id) && OthersRetired(w, id)
    requires Grounded(s.c) && Guarded(w, s.c) && s.c.scope.Incidents? && (s.c.active || s.c.epoch >= 1)
    requires s.wait.Some? ==> TaskFits(w, s.c, s.wait.value)
    ensures Tidy(Go(w, id, s))
  {
    hide Ordered, OthersRetired, Grounded, Guarded, TaskFits, PlainOnly;
    GoOrdered(w, id, s);
    LiveMoves(w, Go(w, id, s), id);
  }

  lemma NowQuiet(w: World, j: Job)
    requires Serial(w, j.owner) && j in w.jobs && !j.at.Loading?
    ensures Quiet(w.(jobs := w.jobs - multiset{j}), j.owner)
  {
  }

  /** The method that was waiting goes on. Storage may have moved in the meantime. */
  lemma ResumeOrdered(m: World, j: Job, s: Segment)
    requires Waiting(m, j) && Serial(m, j.owner) && !j.at.Loading?
    requires Grounded(s.c) && Guarded(m, s.c) && (s.c.active || s.c.epoch >= 1)
    requires s.wait.Some? ==> TaskFits(m, s.c, s.wait.value)
    ensures Ordered(Resume(m, j, s), j.owner)
  {
    var n := Resume(m, j, s);
    var rest := m.(jobs := m.jobs - multiset{j});
    NowQuiet(m, j);
    if s.wait.Some? {
      OnlyOne(rest, j.owner, s.wait.value);
      SerialSame(rest.(jobs := rest.jobs + multiset{Job(j.owner, s.wait.value)}), n, j.owner);
    } else {
      QuietSerial(rest, j.owner);
      SerialSame(rest, n, j.owner);
    }
    SameStorage(m, n, s.c);
    hide Grounded, Guarded, Serial;
    forall k | k in n.jobs && k.owner == j.owner ensures TaskFits(n, s.c, k.at) {
      if k in rest.jobs { assert k.at.Loading?; }
    }
  }

  lemma ResumeOthers(w: World, m: World, j: Job, s: Segment)
    requires Waiting(w, j) && m.controllers == w.controllers && m.jobs == w.jobs
    ensures OthersSame(w, Resume(m, j, s), j.owner)
  {
  }

  lemma LiveByJob(w: World, j: Job)
    requires Tidy(w) && Waiting(w, j) && Incident(w, j.owner) && !j.at.Loading?
    ensures Serial(w, j.owner) && OthersRetired(w, j.owner)
  {
    assert !Retired(w, j.owner) && Ordered(w, j.owner);
    hide Ordered, Retired, PlainOnly;
  }

  lemma StepKeeps(w: World, m: World, j: Job, s: Segment)
    requires Tidy(w) && Waiting(w, j) && Incident(w, j.owner) && !j.at.Loading?
    requires m.controllers == w.controllers && m.jobs == w.jobs
    requires !m.log.overlapped && !m.log.respent && PlainSlot(m)
    requires Grounded(s.c) && Guarded(m, s.c) && s.c.scope.Incidents? && (s.c.active || s.c.epoch >= 1)
    requires s.wait.Some? ==> TaskFits(m, s.c, s.wait.value)
    ensures Tidy(Resume(m, j, s))
  {
    LiveByJob(w, j);
    SerialSame(w, m, j.owner);
    ResumeOthers(w, m, j, s);
    assert Resume(m, j, s).log == m.log && PlainSlot(Resume(m, j, s)) && Resume(m, j, s).controllers[j.owner] == s.c;
    hide Tidy, OthersSame, OthersRetired, Ordered, Grounded, Guarded, TaskFits, PlainSlot, Serial, Resume;
    ResumeOrdered(m, j, s);
    LiveMoves(w, Resume(m, j, s), j.owner);
  }
}
