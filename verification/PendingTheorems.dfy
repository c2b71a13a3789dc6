/** The promises of the pending-command protocol, over every run of any number of controllers. */
module PendingTheorems {
  import opened Wrappers
  import opened PendingSlot
  import opened PendingController
  import opened PendingWorld
  import opened PendingInvariants
  import opened PendingPreservation
  import opened PendingHistory

  /** At the step that posts a command the slot has its key, and a restore gives back exactly
      this command, body included, if and only if the save did not name a photo whose file
      is gone or shows another picture. */
  lemma PostStep(w: World, s: Step)
    requires Inv(w) && Posts(w, s)
    ensures var n := Next(w, s); var i := s.job.at.intent;
            && Holds(n, i.key) && i.key in n.log.written && i in n.log.posted
            && (Restorable(n, w.controllers[s.job.owner].scope, i) <==> !Unbacks(w, s))
  {
    var m := Flagged(w, s);
    SavedPosts(m, s.job, s.fault);
    assert m.slot.Some? ==> m.slot.value.key in m.log.written;
    hide Overlaps, Respends, Inv, SavedStep, Holds;
  }

  lemma SavedPosts(w: World, j: Job, fault: Fault)
    requires Posts(w, Saved(j, fault)) && (w.slot.Some? ==> w.slot.value.key in w.log.written)
    ensures var n := SavedStep(w, j, fault);
            && n.slot == ToSave(w, j) && n.files == w.files && n.pixels == w.pixels
            && Holds(n, j.at.intent.key) && j.at.intent.key in n.log.written && j.at.intent in n.log.posted
    ensures Restorable(SavedStep(w, j, fault), w.controllers[j.owner].scope, j.at.intent) <==>
            !Unbacks(w, Saved(j, fault))
  {
    hide AfterSave;
  }

  predicate PostingAt(steps: seq<Step>, k: nat)
    requires k < |steps|
  {
    Posts(Before(steps, k), steps[k])
  }

  /** The key of what step `k` posts is in the slot. */
  predicate StoredAt(steps: seq<Step>, k: nat)
    requires k < |steps|
  {
    PostingAt(steps, k) ==> Holds(Before(steps, k + 1), steps[k].job.at.intent.key)
  }

  /** What step `k` posts could be restored just as it is, from that moment. */
  predicate BackedAt(steps: seq<Step>, k: nat)
    requires k < |steps|
  {
    PostingAt(steps, k) ==>
      Restorable(Before(steps, k + 1), Before(steps, k).controllers[steps[k].job.owner].scope, steps[k].job.at.intent)
  }

  predicate UnbackedAt(steps: seq<Step>, k: nat)
    requires k < |steps|
  {
    PostingAt(steps, k) && Unbacks(Before(steps, k), steps[k])
  }

  lemma PostAt(steps: seq<Step>, k: nat)
    requires k < |steps|
    ensures BackedAt(steps, k) <==> !UnbackedAt(steps, k)
    ensures StoredAt(steps, k)
  {
    var w := Before(steps, k);
    EveryRunKeeps(steps[..k]);
    BeforeNext(steps, k);
    if Posts(w, steps[k]) { PostStep(w, steps[k]); }
    hide Before, Posts, Inv, Next, Unbacks, Restorable;
  }

  /** Write-ahead. A command is posted exactly by a save that has put its key into the slot.
      Through a whole run every command is, when it is posted, exactly what a restore would
      rebuild, if and only if no posting save names a photo that is gone or shows another
      picture; both are things the save could look up. */
  lemma WriteAhead(steps: seq<Step>)
    ensures forall i :: i in Run(BOOT, steps).log.posted <==> exists k :: 0 <= k < |steps| && PostsAt(steps, k, i)
    ensures forall k :: 0 <= k < |steps| ==> StoredAt(steps, k)
    ensures (forall k :: 0 <= k < |steps| ==> BackedAt(steps, k)) <==> (forall k :: 0 <= k < |steps| ==> !UnbackedAt(steps, k))
  {
    WholeRun(steps);
    hide Run, Before, PostsAt, PostingAt, StoredAt, BackedAt, UnbackedAt;
    forall i ensures i in Run(BOOT, steps).log.posted <==> exists k :: 0 <= k < |steps| && PostsAt(steps, k, i) {
      PostedTells(steps, |steps|, i);
    }
    forall k | 0 <= k < |steps|
      ensures BackedAt(steps, k) <==> !UnbackedAt(steps, k)
      ensures StoredAt(steps, k)
    {
      PostAt(steps, k);
    }
  }

  predicate Open(w: World, i: Intent) {
    i in w.log.posted && i.key !in w.log.resolved && i.key !in w.log.abandoned
  }

  /** One unresolved command. A posted command without a definite answer is the one in the
      slot, unless it is an upload given up because the report window had closed. */
  lemma OneUnresolved(steps: seq<Step>)
    ensures var w := Run(BOOT, steps);
            && (forall i :: Open(w, i) ==> Holds(w, i.key))
            && (forall i, j :: Open(w, i) && Open(w, j) ==> i.key == j.key)
            && (forall k :: k in w.log.abandoned ==> k in w.log.made && w.log.made[k].Upload?)
  {
    hide Run;
    EveryRunKeeps(steps);
    var w := Run(BOOT, steps);
    forall i | Open(w, i) ensures Holds(w, i.key) { assert Held(w, i.key); }
  }

  /** A key names one command: two posts of a key send the same path and body. For uploads
      that is so unless some save stored an upload with the photo of another picture. */
  lemma OneBodyPerKey(steps: seq<Step>)
    ensures forall i, j :: i in Run(BOOT, steps).log.posted && j in Run(BOOT, steps).log.posted && i.key == j.key ==>
              && (i.command.Upload? <==> j.command.Upload?)
              && (!i.command.Upload? || (forall k :: 0 <= k < |steps| ==> !CrossesAt(steps, k)) ==> i == j)
  {
    EveryRunKeeps(steps);
    WholeRun(steps);
    CrossedTells(steps, |steps|);
    hide Run, Before, CrossesAt;
    var w := Run(BOOT, steps);
    forall i, j | i in w.log.posted && j in w.log.posted && i.key == j.key
      ensures (i.command.Upload? <==> j.command.Upload?) && (!i.command.Upload? || !w.log.crossed ==> i == j)
    {
      assert IntentOk(w, i) && IntentOk(w, j);
    }
  }

  /** A save can name the photo of another picture only after a resume has replaced the
      snapshot of a controller that holds, or is resuming, a different upload. */
  lemma CrossingNeedsOverlap(steps: seq<Step>, k: nat)
    requires k < |steps| && CrossesAt(steps, k)
    ensures exists m :: 0 <= m < k && OverlapsAt(steps, m)
  {
    EveryRunKeeps(steps[..k]);
    CrossedByOverlap(Before(steps, k), steps[k]);
    OverlappedTells(steps, k);
  }

  /** A restore on the screen the slot belongs to gives back this command. */
  predicate Kept(w: World, key: Key, command: Command) {
    Holds(w, key) && Restorable(w, w.slot.value.scope, Intent(key, command))
  }

  lemma KeptOrResolved(w: World, key: Key)
    requires Inv(w) && key in w.log.written && key in w.log.made && !w.log.made[key].Upload?
    ensures key in w.log.resolved
            || (Kept(w, key, w.log.made[key]) && (!w.log.made[key].Plain? ==> w.slot.value.scope.Incidents?))
  {
    assert Held(w, key);
    if Holds(w, key) { assert SlotOk(w); }
    hide ControllersOk, JobsOk, PostedOk, EvidenceOk, ResolvedOk, MarksOk;
  }

  /** The answer of step `k` is a success, or a refusal that is not an expired session. */
  predicate SucceededAt(steps: seq<Step>, k: nat, key: Key)
    requires k < |steps|
  {
    var s := steps[k];
    && s.Replied? && s.job.at.Posting? && s.job.at.intent.key == key && s.job in Before(steps, k).jobs
    && (s.reply.Confirmed? || (s.reply.Refused? && s.reply.status != Unauthorized))
  }

  lemma SettledDiscard(steps: seq<Step>, k: nat, i: Intent)
    requires k < |steps| && SettledAt(steps, k, i.key) && steps[k].job.at.intent.command.Discard?
    ensures SucceededAt(steps, k, i.key)
  {
  }

  lemma AnsweredOwn(steps: seq<Step>, k: nat, key: Key)
    requires k < |steps| && SettledAt(steps, k, key)
    ensures key in Before(steps, k).log.made
    ensures !Before(steps, k).log.made[key].Upload? ==> steps[k].job.at.intent.command == Before(steps, k).log.made[key]
  {
    EveryRunKeeps(steps[..k]);
    JobOf(Before(steps, k), steps[k].job);
    hide Inv;
  }

  /** Whatever is not an upload and was ever put into the slot stays there, and a restore gives
      it back, until the step that brings it a settling answer. */
  lemma StoredUntilSettled(steps: seq<Step>, key: Key)
    requires key in Run(BOOT, steps).log.written && key in Run(BOOT, steps).log.made
    requires !Run(BOOT, steps).log.made[key].Upload?
    ensures var w := Run(BOOT, steps);
            Kept(w, key, w.log.made[key]) || exists k :: 0 <= k < |steps| && SettledAt(steps, k, key)
  {
    EveryRunKeeps(steps);
    WholeRun(steps);
    hide Run, Before, Inv, SettledAt;
    KeptOrResolved(Run(BOOT, steps), key);
    ResolvedTells(steps, |steps|, key);
  }

  /** A discard that was put into the slot leaves it only after it succeeded or was refused for
      another reason than an expired session. Through 401, 503, lost answers, stops, crashes
      and storage faults it stays, and the incidents screen's next restore gives it back, so
      unused evidence is never forgotten. */
  lemma DiscardStays(steps: seq<Step>, key: Key, evidence: Evidence)
    requires key in Run(BOOT, steps).log.written && key in Run(BOOT, steps).log.made
    requires Run(BOOT, steps).log.made[key] == Discard(evidence)
    ensures var w := Run(BOOT, steps);
            || Restorable(w, Incidents, Intent(key, Discard(evidence)))
            || exists k :: 0 <= k < |steps| && SucceededAt(steps, k, key)
  {
    EveryRunKeeps(steps);
    WholeRun(steps);
    hide Run, Before, Inv, SettledAt, SucceededAt;
    var w := Run(BOOT, steps);
    KeptOrResolved(w, key);
    if key in w.log.resolved {
      ResolvedTells(steps, |steps|, key);
      var k :| 0 <= k < |steps| && SettledAt(steps, k, key);
      AnsweredOwn(steps, k, key);
      MadeStays(steps, k, key);
      SettledDiscard(steps, k, Intent(key, Discard(evidence)));
    }
  }

  /** What a key names never changes. */
  lemma MadeStays(steps: seq<Step>, k: nat, key: Key)
    requires k <= |steps| && key in Before(steps, k).log.made
    ensures key in Run(BOOT, steps).log.made && Run(BOOT, steps).log.made[key] == Before(steps, k).log.made[key]
    decreases |steps| - k
  {
    WholeRun(steps);
    hide Run, Before;
    if k < |steps| {
      BeforeNext(steps, k);
      NextLog(Before(steps, k), steps[k]);
      hide Next, SentBy, SettledBy, Flagged;
      FlaggedMade(Before(steps, k), steps[k]);
      MadeStays(steps, k + 1, key);
    }
  }

  lemma FlaggedMade(w: World, s: Step)
    ensures Flagged(w, s).log.made == w.log.made
  {
  }

  predicate PostedReport(w: World, i: Intent, upload: Key) {
    && i in w.log.posted && i.command.Report?
    && i.command.evidence in w.issued && w.issued[i.command.evidence] == upload
  }

  ghost predicate TwoReports(w: World, upload: Key) {
    exists i, j :: i != j && PostedReport(w, i, upload) && PostedReport(w, j, upload)
  }

  /** At most one report key is ever posted for an upload key, as long as no save writes an
      upload into the empty slot after its evidence was reported. */
  lemma OneReportPerUpload(steps: seq<Step>)
    requires forall k :: 0 <= k < |steps| ==> !RespendsAt(steps, k)
    ensures var w := Run(BOOT, steps);
            forall upload, i, j :: PostedReport(w, i, upload) && PostedReport(w, j, upload) ==> i == j
  {
    EveryRunKeeps(steps);
    WholeRun(steps);
    RespentTells(steps, |steps|);
    hide Run, Before, RespendsAt;
    var w := Run(BOOT, steps);
    forall upload, i, j | PostedReport(w, i, upload) && PostedReport(w, j, upload) ensures i == j {
      assert IntentOk(w, i) && IntentOk(w, j);
      assert i.command.evidence == j.command.evidence;
    }
  }

  /** Every report or discard a controller builds names evidence the server gave for an
      upload that had been stored. */
  lemma EvidenceIsTheUploads(steps: seq<Step>)
    ensures var w := Run(BOOT, steps);
            forall k :: k in w.log.made && (w.log.made[k].Report? || w.log.made[k].Discard?) ==>
              && w.log.made[k].evidence in w.issued && w.issued[w.log.made[k].evidence] in w.log.written
              && w.issued[w.log.made[k].evidence] in w.log.made && w.log.made[w.issued[w.log.made[k].evidence]].Upload?
  {
    hide Run;
    EveryRunKeeps(steps);
  }

  lemma HeldKey(w: World, key: Key)
    requires Inv(w) && key in w.log.written && key in w.log.made && !w.log.made[key].Upload?
    ensures Holds(w, key) || key in w.log.resolved
  {
    assert Held(w, key);
  }

  lemma AdvanceStores(w: World, j: Job, fault: Fault)
    requires Inv(w) && Waiting(w, j) && j.at.Advancing? && w.controllers[j.owner].scope.Incidents?
    requires Holds(w, j.at.prior.key) && !fault.NotApplied?
    ensures var n := Next(w, Advanced(j, fault)); var key := j.at.next.key;
            key in n.log.written && key in n.log.made && !n.log.made[key].Upload?
  {
    hide Overlaps, Crosses, Respends;
    var m := Flagged(w, Advanced(j, fault));
    NextOwn(w, j);
    AdvancedWrites(m, j, fault);
    hide AdvancedStep, Inv;
  }

  lemma NextOwn(w: World, j: Job)
    requires Inv(w) && Waiting(w, j) && j.at.Advancing?
    ensures j.at.next.key in w.log.made && !w.log.made[j.at.next.key].Upload? && !j.at.next.command.Upload?
    ensures w.slot.Some? ==> w.slot.value.key in w.log.written
  {
    JobOf(w, j);
    hide Inv;
  }

  lemma AdvancedWrites(w: World, j: Job, fault: Fault)
    requires Waiting(w, j) && j.at.Advancing? && w.controllers[j.owner].scope.Incidents?
    requires Holds(w, j.at.prior.key) && !fault.NotApplied? && !j.at.next.command.Upload?
    requires j.at.prior.key in w.log.written
    ensures j.at.next.key in AdvancedStep(w, j, fault).log.written
    ensures AdvancedStep(w, j, fault).log.made == w.log.made
  {
    hide AfterAdvance, Rebuilt;
  }

  /** Once the answer to a confirmed upload or a refused report has been processed, the slot
      keeps the follow-up command until that command gets a definite answer, whatever
      crashes, stops and other controllers do in between. */
  lemma FollowUpHeld(steps: seq<Step>, j: Job, fault: Fault, more: seq<Step>)
    requires var w := Run(BOOT, steps);
             && Waiting(w, j) && j.at.Advancing? && w.controllers[j.owner].scope.Incidents?
             && Holds(w, j.at.prior.key) && !fault.NotApplied?
    ensures var n := Run(BOOT, steps + [Advanced(j, fault)] + more);
            Holds(n, j.at.next.key) || j.at.next.key in n.log.resolved
  {
    hide Run, Inv, Next;
    var s := Advanced(j, fault);
    var w, m := Run(BOOT, steps), Run(BOOT, steps + [s]);
    EveryRunKeeps(steps);
    RunMore(BOOT, steps, [s]);
    RunOne(w, s);
    AdvanceStores(w, j, fault);
    RunMore(BOOT, steps + [s], more);
    RunWritten(m, more, j.at.next.key);
    EveryRunKeeps(steps + [s] + more);
    HeldKey(Run(BOOT, steps + [s] + more), j.at.next.key);
  }
}
