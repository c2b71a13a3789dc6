/**
 Runs in which a promise of the pending-command protocol fails. Each one meets the
 circumstance the corresponding theorem excludes, so none of the conditions can be dropped.
 */
module PendingRuns {
  import opened Wrappers
  import opened PendingSlot
  import opened PendingController
  import opened PendingWorld
  import opened PendingHistory
  import opened PendingTheorems
  import opened PendingPhotos
  import opened PendingDiscipline
  import opened PendingPlay

  const UPLOAD := Intent(1, Upload(9))
  const FIRST_REPORT := Intent(2, Command.Report(7, BLANK.claim, 50))
  const SECOND_REPORT := Intent(3, Command.Report(7, BLANK.claim, 50))

  /** A controller is opened and its buyer makes a report with photo 5. */
  lemma ReportMade() returns (w: World, steps: seq<Step>)
    ensures Reached(BOOT, w, steps) && Good(BOOT, steps)
    ensures var draft := BLANK.(photo := Some(Photo(5, Some(9))));
            Seen(w) == View(
              None, {5}, map[5 := 9],
              map[0 := Controller(Incidents, true, 1, false, false, Some(7), true, draft, Some(UPLOAD), Some(draft))],
              multiset{}, map[], map[1 := Upload(9)], {})
  {
    assert Reached(BOOT, BOOT, []) && Good(BOOT, []) && MayOpen(BOOT);
    hide Reached, Good, MayPress, MayOpen, Effect;
    w, steps := PlayOpen(BOOT, BOOT, [], 0, 7);
    NothingWaits(w, 0);
    w, steps := PlayReport(BOOT, w, steps, 0, 5, 9, 1);
  }

  /** The upload is posted and the server has given evidence 50. */
  lemma UploadPosted() returns (w: World, steps: seq<Step>)
    ensures Reached(BOOT, w, steps) && Good(BOOT, steps)
    ensures var draft := BLANK.(photo := Some(Photo(5, Some(9))));
            Seen(w) == View(
              Some(Record(Incidents, 1, None, Some(Context(7, BLANK.claim, 5)))), {5}, map[5 := 9],
              map[0 := Controller(Incidents, true, 2, true, true, Some(7), true, draft, Some(UPLOAD), Some(draft))],
              multiset{Job(0, Posting(2, UPLOAD))}, map[50 := 1], map[1 := Upload(9)], {UPLOAD})
  {
    hide Reached, Good, MayPress, MayOpen, Effect;
    w, steps := ReportMade();
    NothingWaits(w, 0);
    w, steps := PlayRetry(BOOT, w, steps, 0);
    w, steps := PlayIssue(BOOT, w, steps, UPLOAD, 50);
    assert multiset{} + multiset{Job(0, Posting(2, UPLOAD))} == multiset{Job(0, Posting(2, UPLOAD))};
  }

  /** A second controller resumes the upload, reports it and settles the report, while the
      first, which got no answer, still holds the upload. */
  lemma FirstReportSettled() returns (w: World, steps: seq<Step>)
    ensures Reached(BOOT, w, steps)
    ensures PostedReport(w, FIRST_REPORT, UPLOAD.key) && w.slot.None? && w.issued == map[50 := 1] && w.jobs == multiset{}
    ensures 3 !in w.log.made && 0 in w.controllers
    ensures var c := w.controllers[0];
            Ready(c) && c.active && c.intent == Some(UPLOAD) && c.orderId == Some(7) && c.snapshot.value.claim == BLANK.claim
  {
    hide Reached, Good, MayPress, MayOpen, Effect;
    var none: multiset<Job> := multiset{};
    w, steps := UploadPosted();
    assert forall j: Job :: none + multiset{j} == multiset{j};
    w, steps := PlayUnknown(BOOT, w, steps, 0, 2, none);
    w, steps := PlayResume(BOOT, w, steps, 1);
    w, steps := PlayRetry(BOOT, w, steps, 1);
    w, steps := PlayUploaded(BOOT, w, steps, 1, 50, 2, none);
    w, steps := PlayRetry(BOOT, w, steps, 1);
    w, steps := PlaySettled(BOOT, w, steps, 1, Confirmed(0), 3, none);
  }

  /** Two controllers hold the same upload. One finishes the chain and empties the slot; the
      other saves the upload again, gets the same evidence and posts a second report for it. */
  lemma SecondReport()
    ensures exists steps ::
              && PostedReport(Run(BOOT, steps), FIRST_REPORT, UPLOAD.key)
              && PostedReport(Run(BOOT, steps), SECOND_REPORT, UPLOAD.key)
  {
    hide Run, Effect;
    var none: multiset<Job> := multiset{};
    var w, steps := FirstReportSettled();
    assert forall j: Job :: none + multiset{j} == multiset{j};
    w, steps := PlayRetry(BOOT, w, steps, 0);
    w, steps := PlayUploaded(BOOT, w, steps, 0, 50, 3, none);
    w, steps := PlayRetry(BOOT, w, steps, 0);
    assert w == Run(BOOT, steps);
  }

  /** The report is refused, and its move to the discard fails. */
  lemma ReportWithdrawn() returns (w: World, steps: seq<Step>)
    ensures Reached(BOOT, w, steps) && Good(BOOT, steps)
    ensures w.jobs == multiset{} && w.slot.None? && w.files == {} && w.log.made.Keys == {1, 2, 3}
    ensures w.controllers == map[0 := ALONE.(epoch := 3, draft := PHOTO)]
  {
    hide Reached, Good, MayPress, MayOpen, Effect;
    w, steps := UploadPosted();
    assert multiset{} + multiset{Job(0, Posting(2, UPLOAD))} == multiset{Job(0, Posting(2, UPLOAD))};
    w, steps := PlayUploaded(BOOT, w, steps, 0, 50, 2, multiset{});
    NothingWaits(w, 0);
    w, steps := PlayRetry(BOOT, w, steps, 0);
    assert w.jobs == multiset{Job(0, Posting(3, FIRST_REPORT))};
    w, steps := PlayWithdrawn(BOOT, w, steps, 0, 3);
  }

  /** One controller and one storage fault: after the refused report the buyer reports again
      with the photo still in the draft, and the slot takes an upload whose file is gone. The
      upload is posted although no restore can rebuild it. The run is a disciplined one. */
  lemma PhotoLost()
    ensures exists steps :: var w := Run(BOOT, steps);
              && DisciplinedRun(steps)
              && Intent(4, Upload(9)) in w.log.posted && Holds(w, 4) && Found(w, Incidents).Err? && !PhotoThere(w)
  {
    hide Run, Effect, PhotoThere, Good, MayPress, DisciplinedRun;
    var w, steps := ReportWithdrawn();
    NothingWaits(w, 0);
    w, steps := PlayReportAgain(BOOT, w, steps, 0, 4);
    NothingWaits(w, 0);
    w, steps := PlayRetry(BOOT, w, steps, 0);
    StrandedRecord(w);
    GoodRun(steps);
    assert w == Run(BOOT, steps);
  }

  lemma StrandedRecord(w: World)
    requires w.slot.Some? && w.slot.value.command.None? && w.slot.value.context.Some? && w.files == {}
    ensures !PhotoThere(w) && (w.slot.value.scope.Incidents? ==> Found(w, Incidents).Err?)
  {
  }

  const CROSSED := Intent(2, Upload(10))

  /** Controller 1 has built its own upload, and the slot has refused it, while its restore of
      controller 0's upload is still waiting. */
  lemma UploadRefused() returns (w: World, steps: seq<Step>)
    ensures Reached(BOOT, w, steps)
    ensures var first, second := BLANK.(photo := Some(Photo(5, Some(9)))), BLANK.(photo := Some(Photo(6, Some(10))));
            Seen(w) == View(
              Some(Record(Incidents, 1, None, Some(Context(7, BLANK.claim, 5)))), {5, 6}, map[5 := 9, 6 := 10],
              map[0 := Controller(Incidents, true, 2, true, true, Some(7), true, first, Some(UPLOAD), Some(first)),
                  1 := Controller(Incidents, true, 2, false, false, Some(8), true, second, Some(CROSSED), Some(second))],
              multiset{Job(0, Posting(2, UPLOAD)), Job(1, Restoring)}, map[50 := 1],
              map[1 := Upload(9), 2 := Upload(10)], {UPLOAD})
  {
    hide Reached, Good, MayPress, MayOpen, Effect;
    w, steps := UploadPosted();
    w, steps := PlayMount(BOOT, w, steps, 1, 8);
    w, steps := PlayLoad(BOOT, w, steps, 1);
    w, steps := PlayReport(BOOT, w, steps, 1, 6, 10, 2);
    w, steps := PlayRefused(BOOT, w, steps, 1);
  }

  /** The resume then installs the other snapshot; once the slot is free, the record that is
      saved for the new key names the old photo. */
  lemma CrossedUpload()
    ensures exists steps :: var w := Run(BOOT, steps);
              CROSSED in w.log.posted && Holds(w, CROSSED.key) && Rebuilt(w, w.slot.value) == Intent(CROSSED.key, Upload(9))
  {
    hide Run, Effect;
    var w, steps := UploadRefused();
    var a, j, k := Job(0, Posting(2, UPLOAD)), Job(1, Restoring), Job(1, Resuming(UPLOAD));
    assert w.jobs == multiset{a} + multiset{j};
    var m;
    m, steps := Play(BOOT, w, steps, Restored(j, Working));
    RestoredSeen(m, multiset{a}, j);
    w := Effect(m, Restored(j, Working));
    assert w.jobs == multiset{k} + multiset{a};
    w, steps := PlaySettled(BOOT, w, steps, 0, Refused(OtherRefusal), 3, multiset{k});
    w, steps := PlayRetry(BOOT, w, steps, 1);
    assert w == Run(BOOT, steps);
  }

  const ALONE := Controller(Incidents, true, 1, false, false, Some(7), true, BLANK, None, None)
  const PHOTO := BLANK.(photo := Some(Photo(5, Some(9))))
  const SECOND_UPLOAD := Intent(3, Upload(10))

  function Opened(): World {
    Run(BOOT, [Mount(0, Incidents, Some(7))])
  }

  lemma OpenedSeen()
    ensures Seen(Opened()) == Seen(BOOT).(controllers := map[0 := Mounted(Incidents, Some(7))])
  {
    RunOne(BOOT, Mount(0, Incidents, Some(7)));
  }

  /** The only controller reloads its lists while its restore still waits, and makes a report. */
  lemma RestoreWaits() returns (w: World, steps: seq<Step>)
    ensures Reached(Opened(), w, steps) && Calm(steps)
    ensures Seen(w) == View(
              None, {5}, map[5 := 9],
              map[0 := ALONE.(draft := PHOTO, snapshot := Some(PHOTO), intent := Some(UPLOAD))],
              multiset{Job(0, Restoring)}, map[], map[1 := Upload(9)], {})
  {
    OpenedSeen();
    assert Reached(Opened(), Opened(), []) && Calm([]);
    hide Reached, Calm, Good, MayPress, MayOpen, Effect, Opened;
    w, steps := PlayStart(Opened(), Opened(), [], 0, 7);
    assert w.jobs == multiset{Job(0, Restoring)};
    w, steps := PlayLoad(Opened(), w, steps, 0);
    w, steps := PlayReport(Opened(), w, steps, 0, 5, 9, 1);
  }

  /** The upload is posted; the answer is lost. */
  lemma RestoreLate() returns (w: World, steps: seq<Step>)
    ensures Reached(Opened(), w, steps) && Calm(steps)
    ensures Seen(w) == View(
              Some(HELD), {5}, map[5 := 9],
              map[0 := ALONE.(epoch := 2, draft := PHOTO, snapshot := Some(PHOTO), intent := Some(UPLOAD))],
              multiset{Job(0, Restoring)}, map[50 := 1], map[1 := Upload(9)], {UPLOAD})
  {
    hide Reached, Calm, Good, MayPress, MayOpen, Effect, Opened;
    w, steps := RestoreWaits();
    w, steps := PlayRetry(Opened(), w, steps, 0);
    w, steps := PlayIssue(Opened(), w, steps, UPLOAD, 50);
    w, steps := PlayUnknown(Opened(), w, steps, 0, 2, multiset{Job(0, Restoring)});
  }

  const RESUMING := multiset{Job(0, Resuming(UPLOAD))}
  const HELD := Record(Incidents, 1, None, Some(Context(7, BLANK.claim, 5)))

  /** The restore finds the upload in the slot; its resume waits for lists. */
  lemma RestoreFound() returns (w: World, steps: seq<Step>)
    ensures Reached(Opened(), w, steps) && Calm(steps)
    ensures Seen(w) == View(
              Some(HELD), {5}, map[5 := 9],
              map[0 := ALONE.(epoch := 2, draft := PHOTO, snapshot := Some(PHOTO), intent := Some(UPLOAD))],
              RESUMING, map[50 := 1], map[1 := Upload(9)], {UPLOAD})
  {
    hide Reached, Calm, Good, MayPress, MayOpen, Effect, Opened;
    var j := Job(0, Restoring);
    w, steps := RestoreLate();
    var m;
    m, steps := Play(Opened(), w, steps, Restored(j, Working));
    RestoredSeen(m, multiset{}, j);
    assert AfterRestore(w.controllers[0], Some((UPLOAD, w.slot.value.context))) == Segment(w.controllers[0], Some(Resuming(UPLOAD)));
    w := Effect(m, Restored(j, Working));
    assert w.jobs == RESUMING;
  }

  /** Meanwhile the upload is retried and confirmed. */
  lemma EvidenceHeard() returns (w: World, steps: seq<Step>)
    ensures Reached(Opened(), w, steps) && Calm(steps)
    ensures Seen(w) == View(
              Some(Record(Incidents, 2, Some(FIRST_REPORT.command), HELD.context)), {5}, map[5 := 9],
              map[0 := ALONE.(epoch := 3, draft := PHOTO, snapshot := Some(PHOTO), intent := Some(FIRST_REPORT))],
              RESUMING, map[50 := 1], map[1 := Upload(9), 2 := FIRST_REPORT.command], {UPLOAD})
  {
    hide Reached, Calm, Good, MayPress, MayOpen, Effect, Opened;
    w, steps := RestoreFound();
    w, steps := PlayRetry(Opened(), w, steps, 0);
    w, steps := PlayUploaded(Opened(), w, steps, 0, 50, 2, RESUMING);
  }

  /** The report is posted and settled: the resume is now of a reported upload. */
  lemma ResumeStale() returns (w: World, steps: seq<Step>)
    ensures Reached(Opened(), w, steps) && Calm(steps)
    ensures PostedReport(w, FIRST_REPORT, UPLOAD.key) && w.slot.None? && w.issued == map[50 := 1]
    ensures w.jobs == RESUMING && w.pixels == map[5 := 9]
    ensures w.log.made == map[1 := Upload(9), 2 := FIRST_REPORT.command]
    ensures w.controllers == map[0 := ALONE.(epoch := 4)]
  {
    hide Reached, Calm, Good, MayPress, MayOpen, Effect, Opened;
    w, steps := EvidenceHeard();
    w, steps := PlayRetry(Opened(), w, steps, 0);
    w, steps := PlaySettled(Opened(), w, steps, 0, Confirmed(0), 3, RESUMING);
  }

  /** The save of the next report waits. */
  lemma SaveWaits() returns (w: World, steps: seq<Step>, j: Job)
    ensures Reached(Opened(), w, steps) && Calm(steps)
    ensures PostedReport(w, FIRST_REPORT, UPLOAD.key) && w.slot.None? && w.issued == map[50 := 1]
    ensures w.jobs == RESUMING + multiset{j} && j.owner == 0 && j.at.Saving? && j.at.epoch == 5
    ensures w.log.made.Keys == {1, 2, 3}
    ensures var draft := BLANK.(photo := Some(Photo(6, Some(10))));
            w.controllers == map[0 := ALONE.(epoch := 5, locked := true, busy := true, draft := draft,
                                             snapshot := Some(draft), intent := Some(SECOND_UPLOAD))]
  {
    hide Reached, Calm, Good, MayPress, MayOpen, Effect, Opened;
    w, steps := ResumeStale();
    w, steps := PlayReport(Opened(), w, steps, 0, 6, 10, 3);
    j := SaveJob(0, w.controllers[0]);
    w, steps := PlayPressed(Opened(), w, steps, 0);
  }

  /** The stale resume puts the reported upload back, and the waiting save fails. */
  lemma UploadIsBack() returns (w: World, steps: seq<Step>)
    ensures Reached(Opened(), w, steps) && Calm(steps)
    ensures PostedReport(w, FIRST_REPORT, UPLOAD.key) && w.slot.None? && w.issued == map[50 := 1]
    ensures w.jobs == multiset{} && w.log.made.Keys == {1, 2, 3}
    ensures var draft := BLANK.(photo := Some(Photo(6, Some(10))));
            w.controllers == map[0 := ALONE.(epoch := 5, draft := draft, snapshot := Some(draft), intent := Some(UPLOAD))]
  {
    hide Reached, Calm, Good, MayPress, MayOpen, Effect, Opened;
    var k := Job(0, Resuming(UPLOAD));
    var j, m;
    w, steps, j := SaveWaits();
    m, steps := Play(Opened(), w, steps, Resumed(k, true));
    ResumedSeen(m, multiset{j}, k);
    w := Effect(m, Resumed(k, true));
    m, steps := Play(Opened(), w, steps, Saved(j, NotApplied));
    SaveFailedSeen(m, multiset{}, j);
    w := Effect(m, Saved(j, NotApplied));
  }

  /** The buyer's retry sends the reported upload again, under the photo of the next report. */
  lemma StaleRetry() returns (w: World, steps: seq<Step>)
    ensures Reached(Opened(), w, steps) && Calm(steps)
    ensures PostedReport(w, FIRST_REPORT, UPLOAD.key)
    ensures exists i :: i != FIRST_REPORT && PostedReport(w, i, UPLOAD.key)
  {
    hide Reached, Calm, Good, MayPress, MayOpen, Effect, Opened;
    var none: multiset<Job> := multiset{};
    w, steps := UploadIsBack();
    w, steps := PlayRetry(Opened(), w, steps, 0);
    w, steps := PlayUploaded(Opened(), w, steps, 0, 50, 4, none);
    w, steps := PlayRetry(Opened(), w, steps, 0);
    assert PostedReport(w, Intent(4, FIRST_REPORT.command), UPLOAD.key);
  }

  /** It is not enough that an earlier controller is finished with before the next is opened
      and never touched again: here one screen is opened once and never left, the app is never
      killed, and still two reports are posted for one upload. */
  lemma StaleResume()
    ensures exists more :: Calm(more) && TwoReports(Run(BOOT, [Mount(0, Incidents, Some(7))] + more), UPLOAD.key)
  {
    hide Run, Calm, Effect;
    var w, more := StaleRetry();
    var i :| i != FIRST_REPORT && PostedReport(w, i, UPLOAD.key);
    RunMore(BOOT, [Mount(0, Incidents, Some(7))], more);
    assert w == Run(BOOT, [Mount(0, Incidents, Some(7))] + more);
  }
}
