/**
 How a run goes on: one lemma for each thing a controller, the server or the buyer does,
 giving steps that do it and everything that is seen afterwards.
 */
module PendingPlay {
  import opened Wrappers
  import opened PendingSlot
  import opened PendingController
  import opened PendingWorld
  import opened PendingHistory
  import opened PendingDiscipline

  /** The steps lead from the world `v` to the world `w`. */
  predicate Reached(v: World, w: World, steps: seq<Step>) {
    w == Run(v, steps)
  }

  /** The parts of the world a step reads, and what it has sent. */
  datatype View = View(
    slot: Option<Record>, files: set<nat>, pixels: map<nat, nat>, controllers: map<nat, Controller>,
    jobs: multiset<Job>, issued: map<Evidence, Key>, made: map<Key, Command>, posted: set<Intent>)

  function Seen(w: World): View {
    View(w.slot, w.files, w.pixels, w.controllers, w.jobs, w.issued, w.log.made, w.log.posted)
  }

  predicate CalmStep(s: Step) {
    !s.Mount? && !s.Stop? && !s.Crash?
  }

  /** No screen is opened or left, and the app is not killed. */
  predicate Calm(steps: seq<Step>) {
    forall k :: 0 <= k < |steps| ==> CalmStep(steps[k])
  }

  /** The discipline was followed from `v` on. */
  predicate Good(v: World, steps: seq<Step>) {
    forall k :: 0 <= k < |steps| ==> Disciplined(Run(v, steps[..k]), steps[k])
  }

  lemma GoodStep(v: World, steps: seq<Step>, s: Step)
    requires Good(v, steps) && Disciplined(Run(v, steps), s)
    ensures Good(v, steps + [s])
  {
    var more := steps + [s];
    hide Disciplined, Run;
    forall k | 0 <= k < |more| ensures Disciplined(Run(v, more[..k]), more[k]) {
      if k < |steps| {
        assert more[..k] == steps[..k];
      } else {
        assert more[..k] == steps;
      }
    }
  }

  /** Answers are never restricted. */
  lemma AnswerIsFree(w: World, s: Step)
    requires s.Replied? || s.Advanced? || s.Cleared?
    ensures Disciplined(w, s)
  {
  }

  lemma GoodRun(steps: seq<Step>)
    requires Good(BOOT, steps)
    ensures DisciplinedRun(steps)
  {
    hide Disciplined, Run;
  }

  predicate MayPress(w: World, id: nat) {
    id in w.controllers && w.controllers[id].active && Quiet(w, id)
  }

  predicate MayOpen(w: World) {
    forall i :: i in w.controllers && Incident(w, i) ==> Retired(w, i)
  }

  lemma NothingWaits(w: World, id: nat)
    requires w.jobs == multiset{} && id in w.controllers && w.controllers[id].active
    ensures MayPress(w, id)
  {
  }

  /** One more step of a run. Marking the world first changes nothing that is seen. */
  lemma Play(v: World, w: World, steps: seq<Step>, s: Step) returns (m: World, more: seq<Step>)
    requires Reached(v, w, steps)
    ensures Seen(m) == Seen(w) && Reached(v, Effect(m, s), more)
    ensures Calm(steps) && CalmStep(s) ==> Calm(more)
    ensures Good(v, steps) && Disciplined(w, s) ==> Good(v, more)
  {
    if Good(v, steps) && Disciplined(w, s) { GoodStep(v, steps, s); }
    m, more := Flagged(w, s), steps + [s];
    hide Effect, Overlaps, Crosses, Respends;
    RunMore(v, steps, [s]);
    RunOne(w, s);
  }

  lemma PutTwice(cs: map<nat, Controller>, id: nat, x: Controller, y: Controller)
    ensures cs[id := x][id := y] == cs[id := y]
    ensures id in cs ==> cs[id := cs[id]] == cs
  {
  }

  /** A job resumes: it leaves the jobs, and its controller moves. */
  lemma ResumeSeen(w: World, others: multiset<Job>, j: Job, s: Segment)
    requires w.jobs == others + multiset{j}
    ensures Seen(Resume(w, j, s)) == Seen(w).(
              controllers := w.controllers[j.owner := s.c],
              jobs := if s.wait.None? then others else others + multiset{Job(j.owner, s.wait.value)})
  {
    assert w.jobs - multiset{j} == others;
  }

  lemma StartSeen(w: World, id: nat, order: nat)
    requires id in w.controllers && w.controllers[id] == Mounted(Incidents, Some(order))
    ensures Seen(Effect(w, Step.Start(id))) == Seen(w).(
              jobs := w.jobs + multiset{Job(id, Restoring)},
              controllers := w.controllers[id := Mounted(Incidents, Some(order)).(active := true)])
  {
  }

  lemma PlayStart(v: World, w: World, steps: seq<Step>, id: nat, order: nat) returns (n: World, more: seq<Step>)
    requires Reached(v, w, steps) && id in w.controllers && w.controllers[id] == Mounted(Incidents, Some(order))
    ensures Good(v, steps) ==> Good(v, more)
    ensures Reached(v, n, more) && (Calm(steps) ==> Calm(more))
    ensures Seen(n) == Seen(w).(
              jobs := w.jobs + multiset{Job(id, Restoring)},
              controllers := w.controllers[id := Mounted(Incidents, Some(order)).(active := true)])
  {
    hide Reached, Calm, Good, Effect;
    var m;
    m, more := Play(v, w, steps, Step.Start(id));
    n := Effect(m, Step.Start(id));
    StartSeen(m, id, order);
  }

  lemma PlayMount(v: World, w: World, steps: seq<Step>, id: nat, order: nat) returns (n: World, more: seq<Step>)
    requires Reached(v, w, steps) && id !in w.controllers
    ensures Good(v, steps) && MayOpen(w) ==> Good(v, more)
    ensures Reached(v, n, more)
    ensures Seen(n) == Seen(w).(
              jobs := w.jobs + multiset{Job(id, Restoring)},
              controllers := w.controllers[id := Mounted(Incidents, Some(order)).(active := true)])
  {
    hide Reached, Calm, Good;
    var m;
    m, more := Play(v, w, steps, Mount(id, Incidents, Some(order)));
    var a := Effect(m, Mount(id, Incidents, Some(order)));
    assert Seen(a) == Seen(w).(controllers := w.controllers[id := Mounted(Incidents, Some(order))]);
    hide Effect;
    n, more := PlayStart(v, a, more, id, order);
    PutTwice(w.controllers, id, a.controllers[id], n.controllers[id]);
  }

  lemma RefreshSeen(w: World, id: nat)
    requires id in w.controllers && w.controllers[id].intent.None? && !w.controllers[id].locked
    ensures var c := w.controllers[id];
            Seen(Effect(w, Step.Refresh(id))) == Seen(w).(
              jobs := w.jobs + multiset{Job(id, Loading(c.epoch + 1))},
              controllers := w.controllers[id := c.(epoch := c.epoch + 1, busy := true, orderLoaded := false)])
  {
  }

  lemma LoadedSeen(w: World, others: multiset<Job>, j: Job)
    requires w.jobs == others + multiset{j} && j.owner in w.controllers && j.at.Loading?
    requires w.controllers[j.owner].active && w.controllers[j.owner].epoch == j.at.epoch
    ensures var c := w.controllers[j.owner];
            Seen(Effect(w, LoadDone(j, Loaded))) == Seen(w).(
              jobs := others, controllers := w.controllers[j.owner := c.(busy := false, orderLoaded := c.orderId.Some?)])
  {
    hide Resume;
    ResumeSeen(w, others, j, Segment(AfterLoad(w.controllers[j.owner], j.at.epoch, Loaded), None));
  }

  /** Reloads the lists of an idle controller. */
  lemma PlayLoad(v: World, w: World, steps: seq<Step>, id: nat) returns (n: World, more: seq<Step>)
    requires Reached(v, w, steps) && id in w.controllers
    requires w.controllers[id].intent.None? && !w.controllers[id].locked && w.controllers[id].active
    ensures Reached(v, n, more) && (Calm(steps) ==> Calm(more))
    ensures var c := w.controllers[id];
            Seen(n) == Seen(w).(controllers := w.controllers[id :=
              c.(epoch := c.epoch + 1, busy := false, orderLoaded := c.orderId.Some?)])
  {
    hide Reached, Calm, Good, Effect;
    var m;
    var j := Job(id, Loading(w.controllers[id].epoch + 1));
    m, more := Play(v, w, steps, Step.Refresh(id));
    var a := Effect(m, Step.Refresh(id));
    RefreshSeen(m, id);
    m, more := Play(v, a, more, LoadDone(j, Loaded));
    n := Effect(m, LoadDone(j, Loaded));
    LoadedSeen(m, w.jobs, j);
    PutTwice(w.controllers, id, a.controllers[id], n.controllers[id]);
  }

  /** A restore that finds the slot empty goes on to load the lists. */
  lemma RestoredEmptySeen(w: World, others: multiset<Job>, j: Job)
    requires w.jobs == others + multiset{j} && j.owner in w.controllers && j.at.Restoring? && w.slot.None?
    requires w.controllers[j.owner].scope.Incidents? && Editable(w.controllers[j.owner])
    ensures var c := w.controllers[j.owner];
            Seen(Effect(w, Restored(j, Working))) == Seen(w).(
              jobs := others + multiset{Job(j.owner, Loading(c.epoch + 1))},
              controllers := w.controllers[j.owner := c.(epoch := c.epoch + 1, busy := true, orderLoaded := false)])
  {
    hide Resume;
    ResumeSeen(w, others, j, AfterRestore(w.controllers[j.owner], None));
  }

  /** Mounts an incidents controller, starts it on an empty slot and loads its lists. */
  lemma PlayOpen(v: World, w: World, steps: seq<Step>, id: nat, order: nat) returns (n: World, more: seq<Step>)
    requires Reached(v, w, steps) && id !in w.controllers && w.slot.None?
    ensures Good(v, steps) && MayOpen(w) ==> Good(v, more)
    ensures Reached(v, n, more)
    ensures Seen(n) == Seen(w).(controllers := w.controllers[id :=
              Controller(Incidents, true, 1, false, false, Some(order), true, BLANK, None, None)])
  {
    hide Reached, Calm, Good, Effect;
    var m;
    var j, k := Job(id, Restoring), Job(id, Loading(1));
    n, more := PlayMount(v, w, steps, id, order);
    var a := n;
    m, more := Play(v, n, more, Restored(j, Working));
    n := Effect(m, Restored(j, Working));
    RestoredEmptySeen(m, w.jobs, j);
    var b := n;
    m, more := Play(v, n, more, LoadDone(k, Loaded));
    n := Effect(m, LoadDone(k, Loaded));
    LoadedSeen(m, w.jobs, k);
    PutTwice(w.controllers, id, a.controllers[id], b.controllers[id]);
    PutTwice(w.controllers, id, b.controllers[id], n.controllers[id]);
  }

  /** Chooses a photo into an empty draft and starts a report. */
  lemma PlayReport(v: World, w: World, steps: seq<Step>, id: nat, uri: nat, base64: nat, key: Key)
    returns (n: World, more: seq<Step>)
    requires Reached(v, w, steps) && id in w.controllers && uri !in w.pixels && key !in w.log.made
    requires var c := w.controllers[id]; c.scope.Incidents? && Editable(c) && c.orderLoaded && c.draft == BLANK
    ensures Good(v, steps) && MayPress(w, id) ==> Good(v, more)
    ensures Reached(v, n, more) && (Calm(steps) ==> Calm(more))
    ensures var draft := BLANK.(photo := Some(Photo(uri, Some(base64)))); var i := Intent(key, Upload(base64));
            Seen(n) == Seen(w).(
              files := w.files + {uri}, pixels := w.pixels[uri := base64], made := w.log.made[key := Upload(base64)],
              controllers := w.controllers[id :=
                w.controllers[id].(draft := draft, snapshot := Some(draft), intent := Some(i))])
  {
    hide Reached, Calm, Good;
    var m;
    m, more := Play(v, w, steps, ChoosePhoto(id, uri, base64));
    var a := Effect(m, ChoosePhoto(id, uri, base64));
    m, more := Play(v, a, more, Step.Report(id, key));
    n := Effect(m, Step.Report(id, key));
    assert w.controllers[id := a.controllers[id]][id := n.controllers[id]] == w.controllers[id := n.controllers[id]];
  }

  lemma StoreSeen(w: World, slot: Option<Record>)
    ensures Seen(Store(w, slot)) == Seen(w).(slot := slot)
  {
    hide Rebuilt;
  }

  lemma SavedSeen(w: World, others: multiset<Job>, j: Job)
    requires w.jobs == others + multiset{j} && j.owner in w.controllers && j.at.Saving?
    requires RecordOf(w.controllers[j.owner].scope, j.at.intent, j.at.context).Some?
    ensures var c := w.controllers[j.owner];
            var r := RecordOf(c.scope, j.at.intent, j.at.context);
            if w.slot.None? || w.slot == r then
              Seen(Effect(w, Saved(j, Working))) == Seen(w).(
                slot := r, posted := w.log.posted + {j.at.intent}, controllers := w.controllers[j.owner := c],
                jobs := others + multiset{Job(j.owner, Posting(j.at.epoch, j.at.intent))})
            else
              Seen(Effect(w, Saved(j, Working))) == Seen(w).(
                controllers := w.controllers[j.owner := Finish(c, j.at.epoch)], jobs := others)
  {
    hide Resume, RecordOf, Store;
    var c := w.controllers[j.owner];
    var r := RecordOf(c.scope, j.at.intent, j.at.context);
    StoreSeen(w, Save(w.slot, r.value, Working).slot);
    var ok := Save(w.slot, r.value, Working).ok;
    var n := Store(w, Save(w.slot, r.value, Working).slot);
    ResumeSeen(if ok then Post(n, j.at.intent) else n, others, j, AfterSave(c, j.at.epoch, j.at.intent, ok));
  }

  /** Storage fails: the controller only unlocks. */
  lemma SaveFailedSeen(w: World, others: multiset<Job>, j: Job)
    requires w.jobs == others + multiset{j} && j.owner in w.controllers && j.at.Saving?
    ensures Seen(Effect(w, Saved(j, NotApplied))) == Seen(w).(
              jobs := others, controllers := w.controllers[j.owner := Finish(w.controllers[j.owner], j.at.epoch)])
  {
    hide Resume, RecordOf, Finish;
    ResumeSeen(w, others, j, Segment(Finish(w.controllers[j.owner], j.at.epoch), None));
  }

  predicate Ready(c: Controller) {
    && c.scope.Incidents? && !c.locked && !c.busy && c.intent.Some?
    && c.snapshot.Some? && c.snapshot.value.photo.Some? && c.orderId.Some? && c.orderLoaded
  }

  /** What `retry` makes of the controller before it saves. */
  function Locked(c: Controller): Controller {
    c.(locked := true, epoch := c.epoch + 1, busy := true)
  }

  lemma RetrySeen(w: World, id: nat)
    requires id in w.controllers && Ready(w.controllers[id])
    ensures var c := w.controllers[id];
            Seen(Effect(w, Step.Retry(id, true))) == Seen(w).(
              jobs := w.jobs + multiset{Job(id, Saving(c.epoch + 1, c.intent.value, ContextOf(c)))},
              controllers := w.controllers[id := Locked(c)])
  {
    hide ContextOf;
  }

  function SaveJob(id: nat, c: Controller): Job
    requires c.intent.Some?
  {
    Job(id, Saving(c.epoch + 1, c.intent.value, ContextOf(c)))
  }

  /** `retry` is called; its save has not been answered yet. */
  lemma PlayPressed(v: World, w: World, steps: seq<Step>, id: nat) returns (n: World, more: seq<Step>)
    requires Reached(v, w, steps) && id in w.controllers && Ready(w.controllers[id])
    ensures Good(v, steps) && MayPress(w, id) ==> Good(v, more)
    ensures Reached(v, n, more) && (Calm(steps) ==> Calm(more))
    ensures var c := w.controllers[id];
            Seen(n) == Seen(w).(jobs := w.jobs + multiset{SaveJob(id, c)}, controllers := w.controllers[id := Locked(c)])
  {
    hide Effect, Reached, Calm, Good, ContextOf, Locked;
    var m;
    m, more := Play(v, w, steps, Step.Retry(id, true));
    n := Effect(m, Step.Retry(id, true));
    RetrySeen(m, id);
  }

  lemma PlayPress(v: World, w: World, steps: seq<Step>, id: nat) returns (m: World, more: seq<Step>)
    requires Reached(v, w, steps) && id in w.controllers && Ready(w.controllers[id])
    ensures Good(v, steps) && MayPress(w, id) ==> Good(v, more)
    ensures var c := w.controllers[id];
            && Seen(m) == Seen(w).(jobs := w.jobs + multiset{SaveJob(id, c)}, controllers := w.controllers[id := Locked(c)])
            && Reached(v, Effect(m, Saved(SaveJob(id, c), Working)), more) && (Calm(steps) ==> Calm(more))
  {
    hide Effect, Reached, Calm, Good, ContextOf, Locked;
    var a;
    a, more := PlayPressed(v, w, steps, id);
    m, more := Play(v, a, more, Saved(SaveJob(id, w.controllers[id]), Working));
  }

  /** `retry` saves the held command and, when the slot takes it, posts it. */
  lemma PlayRetry(v: World, w: World, steps: seq<Step>, id: nat) returns (n: World, more: seq<Step>)
    requires Reached(v, w, steps) && id in w.controllers && Ready(w.controllers[id])
    requires var c := w.controllers[id];
             w.slot.None? || w.slot == RecordOf(c.scope, c.intent.value, ContextOf(c))
    ensures Good(v, steps) && MayPress(w, id) ==> Good(v, more)
    ensures Reached(v, n, more) && (Calm(steps) ==> Calm(more))
    ensures var c := w.controllers[id]; var i := c.intent.value;
            Seen(n) == Seen(w).(
              slot := RecordOf(c.scope, i, ContextOf(c)), posted := w.log.posted + {i},
              controllers := w.controllers[id := Locked(c)],
              jobs := w.jobs + multiset{Job(id, Posting(c.epoch + 1, i))})
  {
    var c := w.controllers[id];
    assert RecordOf(c.scope, c.intent.value, ContextOf(c)).Some? && Locked(c).scope == c.scope;
    hide Effect, Reached, Calm, Good, RecordOf, ContextOf, Locked;
    var m;
    m, more := PlayPress(v, w, steps, id);
    SavedSeen(m, w.jobs, SaveJob(id, c));
    n := Effect(m, Saved(SaveJob(id, c), Working));
    PutTwice(w.controllers, id, Locked(c), Locked(c));
  }

  /** The slot holds another record: the command stays with the controller, unposted. */
  lemma PlayRefused(v: World, w: World, steps: seq<Step>, id: nat) returns (n: World, more: seq<Step>)
    requires Reached(v, w, steps) && id in w.controllers && Ready(w.controllers[id])
    requires var c := w.controllers[id];
             w.slot.Some? && w.slot != RecordOf(c.scope, c.intent.value, ContextOf(c))
    ensures Reached(v, n, more)
    ensures var c := w.controllers[id];
            Seen(n) == Seen(w).(controllers := w.controllers[id := Finish(Locked(c), c.epoch + 1)])
  {
    var c := w.controllers[id];
    assert RecordOf(c.scope, c.intent.value, ContextOf(c)).Some? && Locked(c).scope == c.scope;
    hide Effect, Reached, Calm, Good, RecordOf, ContextOf, Locked, Finish;
    var m;
    m, more := PlayPress(v, w, steps, id);
    SavedSeen(m, w.jobs, SaveJob(id, c));
    n := Effect(m, Saved(SaveJob(id, c), Working));
    PutTwice(w.controllers, id, Locked(c), Finish(Locked(c), c.epoch + 1));
  }

  lemma RepliedSeen(w: World, others: multiset<Job>, j: Job, reply: Reply, key: Key)
    requires w.jobs == others + multiset{j} && j.owner in w.controllers && j.at.Posting?
    requires ReplyFits(w, j.at.intent, reply) && key !in w.log.made
    ensures var c := w.controllers[j.owner]; var next := FollowUp(c, j.at.intent, reply, true, key);
            var s := AfterReply(c, j.at.epoch, j.at.intent, reply, true, key);
            Seen(Effect(w, Replied(j, reply, true, key))) == Seen(w).(
              made := if next.Some? then w.log.made[next.value.key := next.value.command] else w.log.made,
              controllers := w.controllers[j.owner := s.c],
              jobs := if s.wait.None? then others else others + multiset{Job(j.owner, s.wait.value)})
  {
    var c, i := w.controllers[j.owner], j.at.intent;
    var next := FollowUp(c, i, reply, true, key);
    var after := AfterReply(c, j.at.epoch, i, reply, true, key);
    var heard := Heard(w, i, Settles(c, j.at.epoch, i, reply), next);
    hide FollowUp, AfterReply, Resume, Settles;
    ReplyEffect(w, j, reply, key);
    HeardSeen(w, i, Settles(c, j.at.epoch, i, reply), next);
    hide *;
    ResumeSeen(heard, others, j, after);
  }

  lemma ReplyEffect(w: World, j: Job, reply: Reply, key: Key)
    requires j in w.jobs && j.owner in w.controllers && j.at.Posting?
    requires ReplyFits(w, j.at.intent, reply) && key !in w.log.made
    ensures var c, i := w.controllers[j.owner], j.at.intent;
            Effect(w, Replied(j, reply, true, key)) ==
            Resume(Heard(w, i, Settles(c, j.at.epoch, i, reply), FollowUp(c, i, reply, true, key)), j,
                   AfterReply(c, j.at.epoch, i, reply, true, key))
  {
    hide FollowUp, AfterReply, Resume, Settles;
  }

  function Heard(w: World, i: Intent, settled: bool, next: Option<Intent>): World {
    var heard := if settled then Hear(w, i.key) else w;
    if next.Some? then Make(heard, next.value) else heard
  }

  lemma HeardSeen(w: World, i: Intent, settled: bool, next: Option<Intent>)
    ensures var n := Heard(w, i, settled, next);
            && Seen(n) == Seen(w).(made := if next.Some? then w.log.made[next.value.key := next.value.command] else w.log.made)
            && n.jobs == w.jobs && n.controllers == w.controllers
  {
  }

  lemma AdvancedSeen(w: World, others: multiset<Job>, j: Job, fault: Fault)
    requires w.jobs == others + multiset{j} && j.owner in w.controllers && j.at.Advancing?
    requires RecordOf(w.controllers[j.owner].scope, j.at.next, j.at.context).Some? && Holds(w, j.at.prior.key)
    ensures var c, t, ok := w.controllers[j.owner], j.at, fault.Working?;
            var s := AfterAdvance(c, t.epoch, t.prior, t.next, t.why, ok);
            Seen(Effect(w, Advanced(j, fault))) == Seen(w).(
              slot := if fault.NotApplied? then w.slot else RecordOf(c.scope, t.next, t.context),
              controllers := w.controllers[j.owner := s.c],
              jobs := if s.wait.None? then others else others + multiset{Job(j.owner, s.wait.value)})
  {
    hide Resume, RecordOf, AfterAdvance, Store;
    var c, t := w.controllers[j.owner], j.at;
    var out := Advance(w.slot, true, RecordOf(c.scope, t.next, t.context).value, fault);
    StoreSeen(w, out.slot);
    ResumeSeen(Store(w, out.slot), others, j, AfterAdvance(c, t.epoch, t.prior, t.next, t.why, out.ok));
  }

  /** The answer to a posted upload is evidence; the controller moves on to the report. */
  lemma PlayUploaded(v: World, w: World, steps: seq<Step>, id: nat, e: Evidence, key: Key, others: multiset<Job>)
    returns (n: World, more: seq<Step>)
    requires Reached(v, w, steps) && id in w.controllers && key !in w.log.made
    requires var c := w.controllers[id];
             && c.scope.Incidents? && c.active && c.intent.Some? && c.intent.value.command.Upload?
             && c.snapshot.Some? && c.orderId.Some? && c.orderLoaded
             && w.jobs == others + multiset{Job(id, Posting(c.epoch, c.intent.value))}
             && e in w.issued && w.issued[e] == c.intent.value.key && Holds(w, c.intent.value.key)
    ensures Good(v, steps) ==> Good(v, more)
    ensures Reached(v, n, more) && (Calm(steps) ==> Calm(more))
    ensures var c := w.controllers[id];
            var i := Intent(key, Command.Report(c.orderId.value, c.snapshot.value.claim, e));
            Seen(n) == Seen(w).(
              slot := RecordOf(c.scope, i, ContextOf(c)), made := w.log.made[key := i.command], jobs := others,
              controllers := w.controllers[id := Finish(c, c.epoch).(intent := Some(i))])
  {
    var c := w.controllers[id];
    var i := c.intent.value;
    var next := Intent(key, Command.Report(c.orderId.value, c.snapshot.value.claim, e));
    var j, k := Job(id, Posting(c.epoch, i)), Job(id, Advancing(c.epoch, i, next, ContextOf(c), Uploaded));
    assert AfterReply(c, c.epoch, i, Confirmed(e), true, key) == Segment(c, Some(k.at));
    assert FollowUp(c, i, Confirmed(e), true, key) == Some(next);
    assert RecordOf(c.scope, next, ContextOf(c)).Some?;
    hide Disciplined, Effect, Reached, Calm, Good, RecordOf, AfterReply, FollowUp;
    var m;
    AnswerIsFree(w, Replied(j, Confirmed(e), true, key));
    m, more := Play(v, w, steps, Replied(j, Confirmed(e), true, key));
    RepliedSeen(m, others, j, Confirmed(e), key);
    var a := Effect(m, Replied(j, Confirmed(e), true, key));
    PutTwice(w.controllers, id, c, c);
    AnswerIsFree(a, Advanced(k, Working));
    m, more := Play(v, a, more, Advanced(k, Working));
    AdvancedSeen(m, others, k, Working);
    n := Effect(m, Advanced(k, Working));
  }

  /** No answer: the controller keeps the command for a retry. */
  lemma PlayUnknown(v: World, w: World, steps: seq<Step>, id: nat, key: Key, others: multiset<Job>)
    returns (n: World, more: seq<Step>)
    requires Reached(v, w, steps) && id in w.controllers && key !in w.log.made && w.controllers[id].intent.Some?
    requires w.jobs == others + multiset{Job(id, Posting(w.controllers[id].epoch, w.controllers[id].intent.value))}
    ensures Good(v, steps) ==> Good(v, more)
    ensures Reached(v, n, more) && (Calm(steps) ==> Calm(more))
    ensures Seen(n) == Seen(w).(jobs := others,
              controllers := w.controllers[id := Finish(w.controllers[id], w.controllers[id].epoch)])
  {
    hide Effect, Reached, Calm, Good;
    var c := w.controllers[id];
    var j := Job(id, Posting(c.epoch, c.intent.value));
    var m;
    m, more := Play(v, w, steps, Replied(j, Unknown, true, key));
    RepliedSeen(m, others, j, Unknown, key);
    n := Effect(m, Replied(j, Unknown, true, key));
  }

  /** A posted command is answered, the slot is cleared and the photo file goes with it. */
  lemma PlaySettled(v: World, w: World, steps: seq<Step>, id: nat, reply: Reply, key: Key, others: multiset<Job>)
    returns (n: World, more: seq<Step>)
    requires Reached(v, w, steps) && id in w.controllers && key !in w.log.made
    requires var c := w.controllers[id];
             && c.scope.Incidents? && c.active && c.intent.Some?
             && w.jobs == others + multiset{Job(id, Posting(c.epoch, c.intent.value))}
             && (if c.intent.value.command.Report? then reply == Confirmed(0)
                 else c.intent.value.command.Upload? && reply == Refused(OtherRefusal))
             && Holds(w, c.intent.value.key) && w.slot.value.context.Some?
    ensures Good(v, steps) ==> Good(v, more)
    ensures Reached(v, n, more) && (Calm(steps) ==> Calm(more))
    ensures var c := w.controllers[id];
            Seen(n) == Seen(w).(slot := None, jobs := others, files := w.files - {w.slot.value.context.value.photo},
              controllers := w.controllers[id :=
                AfterClear(c, c.epoch, c.intent.value, if reply.Confirmed? then Success else Failure(reply.status))])
  {
    var c := w.controllers[id];
    var i := c.intent.value;
    var settled := if reply.Confirmed? then Success else Failure(reply.status);
    var j, k := Job(id, Posting(c.epoch, i)), Job(id, Clearing(c.epoch, i, settled));
    assert AfterReply(c, c.epoch, i, reply, true, key) == Segment(c, Some(k.at));
    assert FollowUp(c, i, reply, true, key).None?;
    hide Disciplined, Reached, Calm, Good, AfterReply, FollowUp, AfterClear;
    var m;
    AnswerIsFree(w, Replied(j, reply, true, key));
    m, more := Play(v, w, steps, Replied(j, reply, true, key));
    RepliedSeen(m, others, j, reply, key);
    var a := Effect(m, Replied(j, reply, true, key));
    PutTwice(w.controllers, id, c, c);
    AnswerIsFree(a, Cleared(k, Working, true));
    m, more := Play(v, a, more, Cleared(k, Working, true));
    ClearedSeen(m, others, k);
    hide Effect;
    n := Effect(m, Cleared(k, Working, true));
  }

  lemma ClearedSeen(w: World, others: multiset<Job>, j: Job)
    requires w.jobs == others + multiset{j} && j.owner in w.controllers && j.at.Clearing?
    requires Holds(w, j.at.intent.key) && w.slot.value.context.Some?
    ensures var c := w.controllers[j.owner];
            Seen(Effect(w, Cleared(j, Working, true))) == Seen(w).(
              slot := None, jobs := others, files := w.files - {w.slot.value.context.value.photo},
              controllers := w.controllers[j.owner := AfterClear(c, j.at.epoch, j.at.intent, j.at.settled)])
  {
    hide Resume, AfterClear;
    var c := w.controllers[j.owner];
    ResumeSeen(Emptied(w, j.at.intent.key, Working, true), others, j,
               Segment(AfterClear(c, j.at.epoch, j.at.intent, j.at.settled), None));
  }

  lemma RestoredSeen(w: World, others: multiset<Job>, j: Job)
    requires w.jobs == others + multiset{j} && j.owner in w.controllers && j.at.Restoring?
    requires w.slot.Some? && w.slot.value.scope == w.controllers[j.owner].scope
    requires w.slot.value.command.None? && w.slot.value.context.Some? && w.slot.value.context.value.photo in w.files
    ensures var s := AfterRestore(w.controllers[j.owner], Some((Rebuilt(w, w.slot.value), w.slot.value.context)));
            Seen(Effect(w, Restored(j, Working))) == Seen(w).(
              controllers := w.controllers[j.owner := s.c],
              jobs := if s.wait.None? then others else others + multiset{Job(j.owner, s.wait.value)})
  {
    hide Resume, AfterRestore, Rebuilt;
    ResumeSeen(w, others, j, AfterRestore(w.controllers[j.owner], Some((Rebuilt(w, w.slot.value), w.slot.value.context))));
  }

  lemma ResumedSeen(w: World, others: multiset<Job>, j: Job)
    requires w.jobs == others + multiset{j} && j.owner in w.controllers && j.at.Resuming?
    ensures Seen(Effect(w, Resumed(j, true))) == Seen(w).(
              jobs := others, controllers := w.controllers[j.owner := AfterResume(w.controllers[j.owner], j.at.intent, true)])
  {
    hide Resume, AfterResume;
    ResumeSeen(w, others, j, Segment(AfterResume(w.controllers[j.owner], j.at.intent, true), None));
  }

  /** A second controller is mounted while an upload is in the slot, and resumes it. */
  lemma PlayResume(v: World, w: World, steps: seq<Step>, id: nat) returns (n: World, more: seq<Step>)
    requires Reached(v, w, steps) && id !in w.controllers
    requires w.slot.Some? && w.slot.value.scope.Incidents? && w.slot.value.command.None? && w.slot.value.context.Some?
    requires w.slot.value.context.value.photo in w.files
    ensures Reached(v, n, more)
    ensures var x := w.slot.value.context.value; var i := Rebuilt(w, w.slot.value);
            var draft := Draft(x.claim, Some(Photo(x.photo, Some(Picture(w, x.photo)))));
            Seen(n) == Seen(w).(controllers := w.controllers[id :=
              Controller(Incidents, true, 0, false, false, Some(x.order), true, draft, Some(i), Some(draft))])
  {
    hide Reached, Calm, Good;
    var m;
    var i, x := Rebuilt(w, w.slot.value), w.slot.value.context;
    var j, k := Job(id, Restoring), Job(id, Resuming(i));
    m, more := Play(v, w, steps, Mount(id, Incidents, None));
    var a := Effect(m, Mount(id, Incidents, None));
    m, more := Play(v, a, more, Step.Start(id));
    var b := Effect(m, Step.Start(id));
    assert Seen(b) == Seen(w).(jobs := w.jobs + multiset{j}, controllers := w.controllers[id := b.controllers[id]]);
    m, more := Play(v, b, more, Restored(j, Working));
    RestoredSeen(m, w.jobs, j);
    var c := Effect(m, Restored(j, Working));
    assert Rebuilt(m, m.slot.value) == i && c.jobs == w.jobs + multiset{k};
    hide Effect;
    m, more := Play(v, c, more, Resumed(k, true));
    ResumedSeen(m, w.jobs, k);
    n := Effect(m, Resumed(k, true));
    PutTwice(w.controllers, id, b.controllers[id], c.controllers[id]);
    PutTwice(w.controllers, id, c.controllers[id], n.controllers[id]);
  }

  lemma PlayIssue(v: World, w: World, steps: seq<Step>, i: Intent, e: Evidence) returns (n: World, more: seq<Step>)
    requires Reached(v, w, steps) && i in w.log.posted && i.command.Upload? && w.issued == map[]
    ensures Good(v, steps) ==> Good(v, more)
    ensures Reached(v, n, more) && (Calm(steps) ==> Calm(more)) && Seen(n) == Seen(w).(issued := map[e := i.key])
  {
    hide Reached, Calm, Good;
    var m;
    m, more := Play(v, w, steps, Issue(i, e));
    n := Effect(m, Issue(i, e));
    assert w.issued[e := i.key] == map[e := i.key];
  }

  /** A refused report whose move to the discard fails once: the record and the photo file
      are cleared, but the draft keeps naming the photo. */
  lemma PlayWithdrawn(v: World, w: World, steps: seq<Step>, id: nat, key: Key) returns (n: World, more: seq<Step>)
    requires Reached(v, w, steps) && id in w.controllers && key !in w.log.made
    requires var c := w.controllers[id];
             && c.scope.Incidents? && c.active && c.intent.Some? && c.intent.value.command.Report?
             && w.jobs == multiset{Job(id, Posting(c.epoch, c.intent.value))}
             && Holds(w, c.intent.value.key) && w.slot.value.context.Some?
    ensures Good(v, steps) ==> Good(v, more)
    ensures Reached(v, n, more)
    ensures var c := w.controllers[id];
            Seen(n) == Seen(w).(slot := None, jobs := multiset{}, files := w.files - {w.slot.value.context.value.photo},
              made := w.log.made[key := Discard(c.intent.value.command.evidence)],
              controllers := w.controllers[id := Finish(c, c.epoch).(intent := None, snapshot := None)])
  {
    var c := w.controllers[id];
    var i, none: multiset<Job> := c.intent.value, multiset{};
    var reply := Refused(OtherRefusal);
    var next := Intent(key, Discard(i.command.evidence));
    var j := Job(id, Posting(c.epoch, i));
    var k := Job(id, Advancing(c.epoch, i, next, ContextOf(c), Withdrawn(OtherRefusal)));
    var l := Job(id, Clearing(c.epoch, i, Failure(OtherRefusal)));
    assert none + multiset{j} == multiset{j} && none + multiset{k} == multiset{k} && none + multiset{l} == multiset{l};
    assert AfterReply(c, c.epoch, i, reply, true, key) == Segment(c, Some(k.at)) && FollowUp(c, i, reply, true, key) == Some(next);
    assert RecordOf(c.scope, next, ContextOf(c)).Some?;
    assert AfterAdvance(c, c.epoch, i, next, Withdrawn(OtherRefusal), false) == Segment(c, Some(l.at));
    assert AfterClear(c, c.epoch, i, Failure(OtherRefusal)) == Finish(c, c.epoch).(intent := None, snapshot := None);
    hide Disciplined, Reached, Calm, Good, Effect, RecordOf, AfterReply, FollowUp, AfterAdvance, AfterClear;
    PutTwice(w.controllers, id, c, c);
    var m;
    AnswerIsFree(w, Replied(j, reply, true, key));
    m, more := Play(v, w, steps, Replied(j, reply, true, key));
    RepliedSeen(m, none, j, reply, key);
    var a := Effect(m, Replied(j, reply, true, key));
    AnswerIsFree(a, Advanced(k, NotApplied));
    m, more := Play(v, a, more, Advanced(k, NotApplied));
    AdvancedSeen(m, none, k, NotApplied);
    var b := Effect(m, Advanced(k, NotApplied));
    AnswerIsFree(b, Cleared(l, Working, true));
    m, more := Play(v, b, more, Cleared(l, Working, true));
    ClearedSeen(m, none, l);
    n := Effect(m, Cleared(l, Working, true));
  }

  /** A report with the photo the draft already has. */
  lemma PlayReportAgain(v: World, w: World, steps: seq<Step>, id: nat, key: Key) returns (n: World, more: seq<Step>)
    requires Reached(v, w, steps) && id in w.controllers && key !in w.log.made && CanReport(w.controllers[id], true)
    ensures Good(v, steps) && MayPress(w, id) ==> Good(v, more)
    ensures Reached(v, n, more)
    ensures var c := BeginReport(w.controllers[id], key);
            Seen(n) == Seen(w).(made := w.log.made[key := c.intent.value.command], controllers := w.controllers[id := c])
  {
    hide Reached, Calm, Good;
    var m;
    m, more := Play(v, w, steps, Step.Report(id, key));
    n := Effect(m, Step.Report(id, key));
  }
}
