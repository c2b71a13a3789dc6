/** What one step adds to the history, and what the history of a run says about its steps. */
module PendingHistory {
  import opened Wrappers
  import opened PendingSlot
  import opened PendingController
  import opened PendingWorld
  import opened PendingPreservation

  lemma {:induction false} RunMore(w: World, steps: seq<Step>, more: seq<Step>)
    ensures Run(w, steps + more) == Run(Run(w, steps), more)
    decreases |more|
  {
    hide Next;
    if more == [] {
      assert steps + more == steps;
    } else {
      RunMore(w, steps, more[..|more| - 1]);
      assert (steps + more)[..|steps + more| - 1] == steps + more[..|more| - 1];
    }
  }

  lemma RunOne(w: World, s: Step)
    ensures Run(w, [s]) == Next(w, s)
  {
    assert [s][..0] == [];
    assert Run(w, [s][..0]) == w;
  }

  /** Histories only grow, the marks are set by nothing but `Flagged`; `sent` is posted and
      `settled` is answered. */
  predicate LogGrows(w: World, n: World, sent: set<Intent>, settled: set<Key>) {
    && w.log.written <= n.log.written && n.log.posted == w.log.posted + sent
    && n.log.resolved == w.log.resolved + settled
    && (forall k :: k in w.log.made ==> k in n.log.made && n.log.made[k] == w.log.made[k])
    && n.log.overlapped == w.log.overlapped && n.log.crossed == w.log.crossed && n.log.respent == w.log.respent
  }

  function SentBy(w: World, s: Step): set<Intent> {
    if Posts(w, s) then {s.job.at.intent} else {}
  }

  /** The step is a settling answer to a posted command. */
  predicate Answers(w: World, s: Step) {
    && s.Replied? && Waiting(w, s.job) && s.job.at.Posting? && ReplyFits(w, s.job.at.intent, s.reply)
    && s.key !in w.log.made && Settles(w.controllers[s.job.owner], s.job.at.epoch, s.job.at.intent, s.reply)
  }

  function SettledBy(w: World, s: Step): set<Key> {
    if Answers(w, s) then {s.job.at.intent.key} else {}
  }

  lemma StoreGrows(w: World, slot: Option<Record>)
    ensures LogGrows(w, Store(w, slot), {}, {})
  {
  }

  lemma PostGrows(w: World, m: World, i: Intent)
    requires LogGrows(w, m, {}, {})
    ensures LogGrows(w, Post(m, i), {i}, {})
  {
  }

  lemma PostsWhen(w: World, j: Job, fault: Fault)
    requires Waiting(w, j) && j.at.Saving?
    ensures Posts(w, Saved(j, fault)) <==> ToSave(w, j).Some? && Save(w.slot, ToSave(w, j).value, fault).ok
  {
    hide RecordOf;
  }

  lemma ResumeSameLog(m: World, j: Job, s: Segment)
    ensures Resume(m, j, s).log == m.log
  {
  }

  lemma SavedIs(w: World, j: Job, fault: Fault)
    requires Waiting(w, j) && j.at.Saving?
    ensures var r := ToSave(w, j);
            var m := if r.None? then w else Store(w, Save(w.slot, r.value, fault).slot);
            var ok := r.Some? && Save(w.slot, r.value, fault).ok;
            SavedStep(w, j, fault) ==
              Resume(if ok then Post(m, j.at.intent) else m, j, AfterSave(w.controllers[j.owner], j.at.epoch, j.at.intent, ok))
  {
    hide AfterSave, ToSave, Resume, Store, Post, Save;
  }

  lemma SavedLogGrows(w: World, j: Job, fault: Fault)
    requires Waiting(w, j) && j.at.Saving?
    ensures LogGrows(w, SavedStep(w, j, fault), SentBy(w, Saved(j, fault)), {})
  {
    var r := ToSave(w, j);
    PostsWhen(w, j, fault);
    hide AfterSave, ToSave, Posts, Resume, Store, Post, Save, LogGrows;
    var m := if r.None? then w else Store(w, Save(w.slot, r.value, fault).slot);
    var ok := r.Some? && Save(w.slot, r.value, fault).ok;
    var n := if ok then Post(m, j.at.intent) else m;
    var s := AfterSave(w.controllers[j.owner], j.at.epoch, j.at.intent, ok);
    SavedIs(w, j, fault);
    ResumeSameLog(n, j, s);
    SameLogGrows(w, n, Resume(n, j, s), {}, {});
    SameLogGrows(w, n, Resume(n, j, s), {j.at.intent}, {});
    Unchanged(w);
    if r.Some? { StoreGrows(w, Save(w.slot, r.value, fault).slot); }
    PostGrows(w, m, j.at.intent);
    assert SentBy(w, Saved(j, fault)) == if ok then {j.at.intent} else {};
    hide SavedStep, SentBy;
  }

  lemma HearMakeGrows(w: World, key: Key, next: Intent)
    requires next.key !in w.log.made
    ensures LogGrows(w, Hear(w, key), {}, {key}) && LogGrows(w, Make(Hear(w, key), next), {}, {key})
    ensures LogGrows(w, Make(w, next), {}, {})
  {
  }

  lemma RepliedLogGrows(w: World, j: Job, reply: Reply, open: bool, key: Key)
    requires Waiting(w, j) && j.at.Posting?
    ensures LogGrows(w, RepliedStep(w, j, reply, open, key), {}, SettledBy(w, Replied(j, reply, open, key)))
  {
    var c, i := w.controllers[j.owner], j.at.intent;
    FollowUpKey(c, i, reply, open, key);
    hide AfterReply, FollowUp, Resume, Settles, Make, Hear, ReplyFits, LogGrows;
    Unchanged(w);
    if ReplyFits(w, i, reply) && key !in w.log.made {
      var settles := Settles(c, j.at.epoch, i, reply);
      var heard := if settles then Hear(w, i.key) else w;
      var next := FollowUp(c, i, reply, open, key);
      var m := if next.Some? then Make(heard, next.value) else heard;
      var s := AfterReply(c, j.at.epoch, i, reply, open, key);
      assert RepliedStep(w, j, reply, open, key) == Resume(m, j, s);
      HearMakeGrows(w, i.key, if next.Some? then next.value else Intent(key, Plain(0)));
      ResumeSameLog(m, j, s);
      SameLogGrows(w, m, Resume(m, j, s), {}, if settles then {i.key} else {});
      assert SettledBy(w, Replied(j, reply, open, key)) == if settles then {i.key} else {};
      hide RepliedStep, SettledBy;
    }
  }

  lemma SameLogGrows(w: World, m: World, n: World, sent: set<Intent>, settled: set<Key>)
    requires n.log == m.log
    ensures LogGrows(w, m, sent, settled) ==> LogGrows(w, n, sent, settled)
  {
  }

  lemma AdvancedLogGrows(w: World, j: Job, fault: Fault)
    requires Waiting(w, j) && j.at.Advancing?
    ensures LogGrows(w, AdvancedStep(w, j, fault), {}, {})
  {
    hide AfterAdvance, RecordOf, Rebuilt;
  }

  lemma ClearedLogGrows(w: World, j: Job, fault: Fault, unlinked: bool)
    requires Waiting(w, j) && (j.at.Clearing? || j.at.Expiring?)
    ensures LogGrows(w, ClearedStep(w, j, fault, unlinked), {}, {})
  {
    hide AfterClear, AfterExpiry;
  }

  lemma FollowUpKey(c: Controller, i: Intent, reply: Reply, open: bool, key: Key)
    ensures var next := FollowUp(c, i, reply, open, key); next.Some? ==> next.value.key == key
  {
  }

  lemma RestoredLogGrows(w: World, j: Job, fault: Fault)
    requires Waiting(w, j) && j.at.Restoring?
    ensures LogGrows(w, RestoredStep(w, j, fault), {}, {})
  {
    hide AfterRestore, Rebuilt;
  }

  /** Steps other than resumptions write nothing. */
  lemma UserLogGrows(w: World, s: Step)
    requires !s.Saved? && !s.Replied? && !s.Advanced? && !s.Cleared? && !s.Restored? && !s.Report? && !s.Request?
    ensures LogGrows(w, Effect(w, s), {}, {})
  {
    hide AfterLoad, AfterResume, Dropped, SetPhoto, PendingController.Retry, PendingController.Refresh;
    assert Effect(w, s).log == w.log;
  }

  lemma CommandLogGrows(w: World, s: Step)
    requires s.Report? || s.Request?
    ensures LogGrows(w, Effect(w, s), {}, {})
  {
    hide CanReport, BeginReport, BeginRequest, Editable;
    if s.id in w.controllers { NewKey(w.controllers[s.id], s.key, if s.Request? then s.request else 0); }
  }

  lemma EffectLog(w: World, s: Step)
    ensures LogGrows(w, Effect(w, s), SentBy(w, s), SettledBy(w, s))
  {
    hide SavedStep, RepliedStep, AdvancedStep, ClearedStep, RestoredStep, LogGrows;
    assert LogGrows(w, w, {}, {}) by { Unchanged(w); }
    assert !s.Saved? || !Waiting(w, s.job) || !s.job.at.Saving? ==> SentBy(w, s) == {};
    assert !s.Replied? || !Waiting(w, s.job) || !s.job.at.Posting? ==> SettledBy(w, s) == {};
    hide SentBy, SettledBy;
    if !s.Saved? && !s.Replied? && !s.Advanced? && !s.Cleared? && !s.Restored? && !s.Report? && !s.Request? {
      hide Effect;
      UserLogGrows(w, s);
    } else if s.Report? || s.Request? {
      hide Effect;
      CommandLogGrows(w, s);
    } else if Waiting(w, s.job) {
      if s.Saved? && s.job.at.Saving? { SavedLogGrows(w, s.job, s.fault); }
      if s.Replied? && s.job.at.Posting? { RepliedLogGrows(w, s.job, s.reply, s.open, s.key); }
      if s.Advanced? && s.job.at.Advancing? { AdvancedLogGrows(w, s.job, s.fault); }
      if s.Cleared? && (s.job.at.Clearing? || s.job.at.Expiring?) { ClearedLogGrows(w, s.job, s.fault, s.unlinked); }
      if s.Restored? && s.job.at.Restoring? { RestoredLogGrows(w, s.job, s.fault); }
    }
  }

  lemma Unchanged(w: World)
    ensures LogGrows(w, w, {}, {})
  {
  }

  lemma NewKey(c: Controller, key: Key, request: nat)
    ensures CanReport(c, true) ==> BeginReport(c, key).intent.Some? && BeginReport(c, key).intent.value.key == key
    ensures Editable(c) ==> BeginRequest(c, key, request).intent.Some? && BeginRequest(c, key, request).intent.value.key == key
  {
  }

  lemma NextLog(w: World, s: Step)
    ensures LogGrows(Flagged(w, s), Next(w, s), SentBy(w, s), SettledBy(w, s))
  {
    var m := Flagged(w, s);
    SameCircumstances(w, m, s);
    hide Effect, Overlaps, Crosses, Respends, Posts;
    EffectLog(m, s);
  }

  lemma {:induction false} RunWritten(w: World, more: seq<Step>, key: Key)
    requires key in w.log.written && key in w.log.made
    ensures key in Run(w, more).log.written && key in Run(w, more).log.made
    ensures Run(w, more).log.made[key] == w.log.made[key]
    decreases |more|
  {
    hide Next, Overlaps, Crosses, Respends;
    if more != [] {
      RunWritten(w, more[..|more| - 1], key);
      NextLog(Run(w, more[..|more| - 1]), more[|more| - 1]);
    }
  }

  // The steps of a run.

  /** The world in which step `k` of the run is taken. */
  function Before(steps: seq<Step>, k: nat): World
    requires k <= |steps|
  {
    Run(BOOT, steps[..k])
  }

  lemma BeforeNext(steps: seq<Step>, k: nat)
    requires k < |steps|
    ensures Before(steps, k + 1) == Next(Before(steps, k), steps[k])
  {
    hide Next;
    assert steps[..k + 1][..k] == steps[..k];
  }

  predicate CrossesAt(steps: seq<Step>, k: nat)
    requires k < |steps|
  {
    Crosses(Before(steps, k), steps[k])
  }

  predicate RespendsAt(steps: seq<Step>, k: nat)
    requires k < |steps|
  {
    Respends(Before(steps, k), steps[k])
  }

  predicate OverlapsAt(steps: seq<Step>, k: nat)
    requires k < |steps|
  {
    Overlaps(Before(steps, k), steps[k])
  }

  /** Step `k` hands this command to the transport. */
  predicate PostsAt(steps: seq<Step>, k: nat, i: Intent)
    requires k < |steps|
  {
    Posts(Before(steps, k), steps[k]) && steps[k].job.at.intent == i
  }

  /** Step `k` is a settling answer to the command of this key. */
  predicate SettledAt(steps: seq<Step>, k: nat, key: Key)
    requires k < |steps|
  {
    Answers(Before(steps, k), steps[k]) && steps[k].job.at.intent.key == key
  }

  /** What step `k` adds to the history. */
  lemma StepTells(steps: seq<Step>, k: nat)
    requires k < |steps|
    ensures var was, log := Before(steps, k).log, Before(steps, k + 1).log;
            && log.crossed == (was.crossed || CrossesAt(steps, k))
            && log.respent == (was.respent || RespendsAt(steps, k))
            && log.overlapped == (was.overlapped || OverlapsAt(steps, k))
            && (forall i :: i in log.posted <==> i in was.posted || PostsAt(steps, k, i))
            && (forall key :: key in log.resolved <==> key in was.resolved || SettledAt(steps, k, key))
  {
    var w, s := Before(steps, k), steps[k];
    BeforeNext(steps, k);
    NextLog(w, s);
    hide Before, Next, Crosses, Respends, Overlaps, Posts, Answers;
  }

  lemma NothingYet(steps: seq<Step>)
    ensures Before(steps, 0) == BOOT
  {
    assert steps[..0] == [];
  }

  /** What was posted in the first `k` steps, told by the steps. */
  lemma {:induction false} PostedTells(steps: seq<Step>, k: nat, i: Intent)
    requires k <= |steps|
    ensures i in Before(steps, k).log.posted <==> exists m :: 0 <= m < k && PostsAt(steps, m, i)
  {
    NothingYet(steps);
    hide Before, PostsAt;
    if k > 0 {
      PostedTells(steps, k - 1, i);
      StepTells(steps, k - 1);
    }
  }

  lemma {:induction false} ResolvedTells(steps: seq<Step>, k: nat, key: Key)
    requires k <= |steps|
    ensures key in Before(steps, k).log.resolved <==> exists m :: 0 <= m < k && SettledAt(steps, m, key)
  {
    NothingYet(steps);
    hide Before, SettledAt;
    if k > 0 {
      ResolvedTells(steps, k - 1, key);
      StepTells(steps, k - 1);
    }
  }

  lemma {:induction false} CrossedTells(steps: seq<Step>, k: nat)
    requires k <= |steps|
    ensures Before(steps, k).log.crossed <==> exists m :: 0 <= m < k && CrossesAt(steps, m)
  {
    NothingYet(steps);
    hide Before, CrossesAt;
    if k > 0 {
      CrossedTells(steps, k - 1);
      StepTells(steps, k - 1);
    }
  }

  lemma {:induction false} RespentTells(steps: seq<Step>, k: nat)
    requires k <= |steps|
    ensures Before(steps, k).log.respent <==> exists m :: 0 <= m < k && RespendsAt(steps, m)
  {
    NothingYet(steps);
    hide Before, RespendsAt;
    if k > 0 {
      RespentTells(steps, k - 1);
      StepTells(steps, k - 1);
    }
  }

  lemma {:induction false} OverlappedTells(steps: seq<Step>, k: nat)
    requires k <= |steps|
    ensures Before(steps, k).log.overlapped <==> exists m :: 0 <= m < k && OverlapsAt(steps, m)
  {
    NothingYet(steps);
    hide Before, OverlapsAt;
    if k > 0 {
      OverlappedTells(steps, k - 1);
      StepTells(steps, k - 1);
    }
  }

  /** The world after the whole run. */
  lemma WholeRun(steps: seq<Step>)
    ensures Before(steps, |steps|) == Run(BOOT, steps)
  {
    assert steps[..|steps|] == steps;
  }
}
