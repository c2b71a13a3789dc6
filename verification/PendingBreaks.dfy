/**
 The conditions of the run theorems are not merely sufficient. From any run whose last step is
 a save of the kind a theorem excludes, the lemmas below continue to one in which its promise
 is broken.
 */
module PendingBreaks {
  import opened Wrappers
  import opened PendingSlot
  import opened PendingController
  import opened PendingWorld
  import opened PendingInvariants
  import opened PendingPreservation
  import opened PendingHistory
  import opened PendingTheorems
  import opened PendingPlay

  lemma {:induction false} FreshKey(keys: set<Key>) returns (key: Key)
    ensures forall k :: k in keys ==> k < key
    decreases keys
  {
    if keys == {} {
      key := 0;
    } else {
      var k :| k in keys;
      var rest := FreshKey(keys - {k});
      key := if rest <= k then k + 1 else rest;
      forall x | x in keys ensures x < key { assert x == k || x in keys - {k}; }
    }
  }

  predicate TwoBodies(w: World, key: Key) {
    exists i, j :: i != j && i in w.log.posted && j in w.log.posted && i.key == key && j.key == key
  }

  /** Evidence that was reported while the slot is empty: its report has been posted. */
  lemma ReportWasPosted(w: World, e: Evidence)
    requires Inv(w) && w.slot.None? && e in w.log.reported
    ensures var key := w.log.reported[e];
            key in w.log.made && PostedReport(w, Intent(key, w.log.made[key]), w.issued[e])
  {
    hide ControllersOk, JobsOk, SlotOk, MarksOk;
    var key := w.log.reported[e];
    assert Held(w, key);
    var i :| i in w.log.posted && i.key == key;
    assert IntentOk(w, i);
  }

  lemma UploadRecord(w: World, s: Step)
    requires SavesUpload(w, s)
    ensures s.job.at.context.Some?
    ensures ToSave(w, s.job) == Some(Record(Incidents, s.job.at.intent.key, None, s.job.at.context))
  {
  }

  /** What a save of an upload that finds the slot empty, or holding its record, leaves. */
  lemma AfterUploadSave(w: World, s: Step)
    requires SavesUpload(w, s)
    ensures var n := Next(w, s);
            && n.slot == ToSave(w, s.job) && n.files == w.files && n.pixels == w.pixels && n.issued == w.issued
            && n.log.made == w.log.made && n.log.posted == w.log.posted + SentBy(w, s)
            && s.job.at.context.Some?
            && ToSave(w, s.job) == Some(Record(Incidents, s.job.at.intent.key, None, s.job.at.context))
  {
    UploadRecord(w, s);
    NextLog(w, s);
    var m := Flagged(w, s);
    assert Next(w, s) == SavedStep(m, s.job, s.fault) by { hide Overlaps, Crosses, Respends, SavedStep; }
    assert Waiting(m, s.job) && m.slot == w.slot && ToSave(m, s.job) == ToSave(w, s.job) by {
      hide Overlaps, Crosses, Respends, RecordOf;
    }
    hide Next, Overlaps, Crosses, Respends, AfterSave, Rebuilt, RecordOf, SentBy, ToSave, Flagged;
  }

  lemma CrashSeen(w: World)
    ensures Seen(Effect(w, Crash)) == Seen(w).(controllers := map[], jobs := multiset{})
  {
  }

  /** What a restore makes of a controller that starts on this record. */
  function Resumed(v: World, r: Record): Controller
    requires r.context.Some?
  {
    var x := r.context.value;
    var draft := Draft(x.claim, Some(Photo(x.photo, Some(Picture(v, x.photo)))));
    Controller(Incidents, true, 0, false, false, Some(x.order), true, draft, Some(Rebuilt(v, r)), Some(draft))
  }

  /** The app is killed and started again, and a new controller restores the upload in the slot. */
  lemma Restarted(v: World, id: nat) returns (n: World, steps: seq<Step>)
    requires v.slot.Some? && v.slot.value.scope.Incidents? && v.slot.value.command.None?
    requires v.slot.value.context.Some? && v.slot.value.context.value.photo in v.files
    ensures Reached(v, n, steps)
    ensures Seen(n) == Seen(v).(jobs := multiset{}, controllers := map[id := Resumed(v, v.slot.value)])
  {
    assert Reached(v, v, []);
    hide Reached, Calm, Good, MayPress, MayOpen;
    var m;
    m, steps := Play(v, v, [], Crash);
    n := Effect(m, Crash);
    CrashSeen(m);
    assert Resumed(n, n.slot.value) == Resumed(v, v.slot.value);
    hide Effect;
    n, steps := PlayResume(v, n, steps, id);
  }

  lemma ResumedReady(v: World, r: Record)
    requires r == Record(Incidents, r.key, None, r.context) && r.context.Some?
    ensures var c := Resumed(v, r);
            && Ready(c) && c.scope == Incidents && c.epoch == 0 && c.intent == Some(Rebuilt(v, r))
            && RecordOf(Incidents, Rebuilt(v, r), ContextOf(c)) == Some(r)
            && Locked(c) == c.(locked := true, epoch := 1, busy := true)
  {
  }

  /** The buyer then retries it. */
  lemma Revived(v: World, id: nat) returns (n: World, steps: seq<Step>)
    requires v.slot.Some? && v.slot.value.context.Some? && v.slot.value.context.value.photo in v.files
    requires v.slot == Some(Record(Incidents, v.slot.value.key, None, v.slot.value.context))
    ensures Reached(v, n, steps)
    ensures var i := Rebuilt(v, v.slot.value); var c := Resumed(v, v.slot.value);
            Seen(n) == Seen(v).(posted := v.log.posted + {i}, jobs := multiset{Job(id, Posting(1, i))},
                                controllers := map[id := c.(locked := true, epoch := 1, busy := true)])
  {
    var i, c := Rebuilt(v, v.slot.value), Resumed(v, v.slot.value);
    ResumedReady(v, v.slot.value);
    hide Reached, Calm, Good, MayPress, Effect, Ready, Resumed, Locked, RecordOf, ContextOf, Rebuilt, Picture;
    n, steps := Restarted(v, id);
    assert n.controllers == map[id := c] && n.slot == v.slot;
    n, steps := PlayRetry(v, n, steps, id);
    Alone(id, c, Locked(c), Job(id, Posting(1, i)));
  }

  lemma Alone(id: nat, c: Controller, d: Controller, j: Job)
    ensures map[id := c][id := d] == map[id := d]
    ensures multiset{} + multiset{j} == multiset{j}
  {
  }

  /** A posted upload is confirmed with evidence it was given before, and reported. */
  lemma Reported(v: World, w: World, steps: seq<Step>, id: nat, e: Evidence, others: multiset<Job>)
    returns (n: World, more: seq<Step>, report: Intent)
    requires Reached(v, w, steps) && id in w.controllers
    requires var c := w.controllers[id];
             && c.scope.Incidents? && c.active && c.intent.Some? && c.intent.value.command.Upload?
             && c.snapshot.Some? && c.snapshot.value.photo.Some? && c.orderId.Some? && c.orderLoaded
             && w.jobs == others + multiset{Job(id, Posting(c.epoch, c.intent.value))}
             && e in w.issued && w.issued[e] == c.intent.value.key && Holds(w, c.intent.value.key)
    ensures Reached(v, n, more) && w.log.posted <= n.log.posted && n.issued == w.issued
    ensures report.key !in w.log.made && PostedReport(n, report, w.controllers[id].intent.value.key)
  {
    hide Reached, Calm, Good, MayPress, MayOpen, Effect;
    var key := FreshKey(w.log.made.Keys);
    var c := w.controllers[id];
    report := Intent(key, Command.Report(c.orderId.value, c.snapshot.value.claim, e));
    n, more := PlayUploaded(v, w, steps, id, e, key, others);
    n, more := PlayRetry(v, n, more, id);
  }

  /** The saving controller will hear the answer and can still build the report. */
  predicate WillReport(w: World, s: Step)
    requires SavesUpload(w, s)
  {
    var c := w.controllers[s.job.owner];
    && s.fault.Working? && c.active && c.epoch == s.job.at.epoch && c.intent == Some(s.job.at.intent)
    && c.snapshot.Some? && c.snapshot.value.photo.Some? && c.orderId.Some? && c.orderLoaded
  }

  lemma RevivedReport(w: World, s: Step, e: Evidence) returns (more: seq<Step>, report: Intent)
    requires Inv(w) && Respends(w, s) && s.job.at.context.Some? && s.job.at.context.value.photo in w.files
    requires e in w.issued && w.issued[e] == s.job.at.intent.key
    ensures var n := Run(Next(w, s), more);
            report.key !in w.log.made && PostedReport(n, report, s.job.at.intent.key)
            && w.log.posted <= n.log.posted && n.issued == w.issued
  {
    var v := Next(w, s);
    AfterUploadSave(w, s);
    hide Next, Run, Inv, Respends;
    var n, steps := Revived(v, 0);
    n, steps, report := Reported(v, n, steps, 0, e, multiset{});
    more := steps;
  }

  lemma ContinuedReport(w: World, s: Step, e: Evidence) returns (more: seq<Step>, report: Intent)
    requires Inv(w) && Respends(w, s) && WillReport(w, s)
    requires e in w.issued && w.issued[e] == s.job.at.intent.key
    ensures var n := Run(Next(w, s), more);
            report.key !in w.log.made && PostedReport(n, report, s.job.at.intent.key)
            && w.log.posted <= n.log.posted && n.issued == w.issued
  {
    var v, j := Next(w, s), s.job;
    AfterUploadSave(w, s);
    var m := Flagged(w, s);
    assert Seen(m) == Seen(w);
    assert m.jobs == (m.jobs - multiset{j}) + multiset{j};
    SavedSeen(m, m.jobs - multiset{j}, j);
    assert Reached(v, v, []);
    assert s == Saved(j, Working);
    hide Run, Inv, Respends, Effect, Flagged;
    var n;
    n, more, report := Reported(v, v, [], j.owner, e, m.jobs - multiset{j});
  }

  /** Whenever a save writes an upload into the empty slot after its evidence was reported,
      the run can go on to a second report for the same upload, provided the upload's photo
      file is still there or the saving controller is still on screen with its order. */
  lemma RespendBreaks(steps: seq<Step>, s: Step)
    requires Respends(Run(BOOT, steps), s)
    requires (s.job.at.context.Some? && s.job.at.context.value.photo in Run(BOOT, steps).files)
             || WillReport(Run(BOOT, steps), s)
    ensures exists more :: TwoReports(Run(BOOT, steps + [s] + more), s.job.at.intent.key)
  {
    hide Run, Next, Inv;
    var w := Run(BOOT, steps);
    EveryRunKeeps(steps);
    var e :| e in w.issued && w.issued[e] == s.job.at.intent.key && e in w.log.reported;
    ReportWasPosted(w, e);
    var first := Intent(w.log.reported[e], w.log.made[w.log.reported[e]]);
    var more, second;
    if s.job.at.context.Some? && s.job.at.context.value.photo in w.files {
      more, second := RevivedReport(w, s, e);
    } else {
      more, second := ContinuedReport(w, s, e);
    }
    RunMore(BOOT, steps, [s]);
    RunOne(w, s);
    RunMore(BOOT, steps + [s], more);
    var n := Run(BOOT, steps + [s] + more);
    assert first != second && PostedReport(n, first, s.job.at.intent.key) && PostedReport(n, second, s.job.at.intent.key);
    assert TwoReports(n, s.job.at.intent.key);
  }

  /** Whenever a save posts an upload while the record names another picture that can still
      be read, the run can go on to post the same key with that other picture. */
  lemma CrossBreaks(steps: seq<Step>, s: Step)
    requires var w := Run(BOOT, steps);
             Crosses(w, s) && Posts(w, s) && s.job.at.context.value.photo in w.files
    ensures exists more :: TwoBodies(Run(BOOT, steps + [s] + more), s.job.at.intent.key)
  {
    hide Run, Next;
    var w := Run(BOOT, steps);
    AfterUploadSave(w, s);
    var v := Next(w, s);
    var n, more := Revived(v, 0);
    RunMore(BOOT, steps, [s]);
    RunOne(w, s);
    RunMore(BOOT, steps + [s], more);
    assert n == Run(BOOT, steps + [s] + more);
    var i := Rebuilt(v, v.slot.value);
    assert s.job.at.intent in n.log.posted && i in n.log.posted && i != s.job.at.intent;
    assert TwoBodies(n, s.job.at.intent.key);
  }
}
