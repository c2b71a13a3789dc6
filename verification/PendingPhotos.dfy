/** When the photo file of a stored upload is there, and exactly which steps lose it. */
module PendingPhotos {
  import opened Wrappers
  import opened PendingSlot
  import opened PendingController
  import opened PendingWorld
  import opened PendingInvariants
  import opened PendingPreservation
  import opened PendingHistory

  /** The photo a stored upload needs to be restored. */
  function Needed(slot: Option<Record>): Option<nat> {
    if slot.Some? && slot.value.command.None? && slot.value.context.Some? then Some(slot.value.context.value.photo)
    else None
  }

  /** A stored upload can be read back. */
  predicate PhotoThere(w: World) {
    Needed(w.slot).Some? ==> Needed(w.slot).value in w.files
  }

  predicate EditLoses(w: World, s: Step) {
    && (s.ChoosePhoto? || s.DropPhoto?) && EditsPhoto(w, s.id) && (s.ChoosePhoto? ==> s.uri !in w.pixels)
    && Needed(w.slot).Some?
    && Dropped(w.controllers[s.id], if s.ChoosePhoto? then Some(Photo(s.uri, Some(s.base64))) else None) == Needed(w.slot)
  }

  /** `save` writes an upload whose file is already gone. */
  predicate SaveLoses(w: World, s: Step) {
    && SavesUpload(w, s) && w.slot.None?
    && s.job.at.context.Some? && s.job.at.context.value.photo !in w.files
  }

  /** Exactly two kinds of step lose the photo of a stored upload: a save that finds the slot
      empty and the file gone, and an edit that deletes the file the slot names. */
  lemma PhotoStep(w: World, s: Step)
    requires Inv(w) && PhotoThere(w)
    ensures PhotoThere(Next(w, s)) <==> !(SaveLoses(w, s) || EditLoses(w, s))
  {
    hide Overlaps, Crosses, Respends, Inv, SavedStep, RepliedStep, AdvancedStep, ClearedStep, EditLoses, SaveLoses, PhotoThere;
    var m := Flagged(w, s);
    SameLosses(w, m, s);
    LossKinds(w, s);
    match s
    case ChoosePhoto(_, _, _) => EditPhoto(m, s);
    case DropPhoto(_) => EditPhoto(m, s);
    case Saved(j, fault) => if Waiting(w, j) && j.at.Saving? { SavedPhoto(m, j, fault); }
    case Replied(j, reply, open, key) => if Waiting(w, j) && j.at.Posting? { RepliedPhoto(m, j, reply, open, key); }
    case Advanced(j, fault) => if Waiting(w, j) && j.at.Advancing? { JobOf(w, j); AdvancedPhoto(m, j, fault); }
    case Cleared(j, fault, unlinked) =>
      if Waiting(w, j) && (j.at.Clearing? || j.at.Expiring?) { ClearedPhoto(m, j, fault, unlinked); }
    case _ => OtherPhoto(m, s);
  }

  lemma SameLosses(w: World, m: World, s: Step)
    requires m == Flagged(w, s)
    ensures PhotoThere(m) == PhotoThere(w) && SaveLoses(m, s) == SaveLoses(w, s) && EditLoses(m, s) == EditLoses(w, s)
  {
    hide Overlaps, Crosses, Respends;
  }

  lemma LossKinds(w: World, s: Step)
    ensures SaveLoses(w, s) ==> s.Saved? && Waiting(w, s.job) && s.job.at.Saving?
    ensures EditLoses(w, s) ==> s.ChoosePhoto? || s.DropPhoto?
  {
  }

  lemma EditPhoto(w: World, s: Step)
    requires (s.ChoosePhoto? || s.DropPhoto?) && PhotoThere(w)
    ensures PhotoThere(Effect(w, s)) <==> !(SaveLoses(w, s) || EditLoses(w, s))
  {
    hide SetPhoto;
  }

  lemma OtherPhoto(w: World, s: Step)
    requires PhotoThere(w) && !s.ChoosePhoto? && !s.DropPhoto? && !s.Saved? && !s.Replied? && !s.Advanced? && !s.Cleared?
    ensures PhotoThere(Effect(w, s)) && !SaveLoses(w, s) && !EditLoses(w, s)
  {
    hide AfterRestore, PendingController.Retry, PendingController.Refresh, AfterLoad, AfterResume, Rebuilt, BeginReport, BeginRequest;
  }

  lemma SavedPhoto(w: World, j: Job, fault: Fault)
    requires Waiting(w, j) && j.at.Saving? && PhotoThere(w)
    ensures PhotoThere(SavedStep(w, j, fault)) <==> !SaveLoses(w, Saved(j, fault))
    ensures !EditLoses(w, Saved(j, fault))
  {
    hide AfterSave, Rebuilt;
  }

  lemma RepliedPhoto(w: World, j: Job, reply: Reply, open: bool, key: Key)
    requires Waiting(w, j) && j.at.Posting? && PhotoThere(w)
    ensures PhotoThere(RepliedStep(w, j, reply, open, key))
  {
    hide AfterReply, FollowUp;
  }

  lemma AdvancedPhoto(w: World, j: Job, fault: Fault)
    requires Waiting(w, j) && j.at.Advancing? && !j.at.next.command.Upload? && PhotoThere(w)
    ensures PhotoThere(AdvancedStep(w, j, fault))
  {
    hide AfterAdvance, Rebuilt;
  }

  lemma ClearedPhoto(w: World, j: Job, fault: Fault, unlinked: bool)
    requires Waiting(w, j) && (j.at.Clearing? || j.at.Expiring?) && PhotoThere(w)
    ensures PhotoThere(ClearedStep(w, j, fault, unlinked))
  {
    hide AfterClear, AfterExpiry;
  }

  predicate LosesAt(steps: seq<Step>, k: nat)
    requires k < |steps|
  {
    SaveLoses(Before(steps, k), steps[k]) || EditLoses(Before(steps, k), steps[k])
  }

  predicate ThereAt(steps: seq<Step>, k: nat)
    requires k <= |steps|
  {
    PhotoThere(Before(steps, k))
  }

  lemma ThereNext(steps: seq<Step>, k: nat)
    requires k < |steps| && ThereAt(steps, k)
    ensures ThereAt(steps, k + 1) <==> !LosesAt(steps, k)
  {
    EveryRunKeeps(steps[..k]);
    BeforeNext(steps, k);
    hide Inv, Next, SaveLoses, EditLoses, PhotoThere;
    PhotoStep(Before(steps, k), steps[k]);
  }

  lemma {:induction false} ThereUpTo(steps: seq<Step>, k: nat)
    requires k <= |steps| && forall i :: 0 <= i < k ==> !LosesAt(steps, i)
    ensures ThereAt(steps, k)
  {
    if k > 0 {
      ThereUpTo(steps, k - 1);
      ThereNext(steps, k - 1);
    } else {
      NothingYet(steps);
    }
  }

  /** The photo named by a stored upload exists throughout a run exactly when no step of the
      run is one of the two. Clearing, advancing, crashing and the startup cleanup never are. */
  lemma PhotoAlwaysThere(steps: seq<Step>)
    ensures (forall k :: 0 <= k <= |steps| ==> ThereAt(steps, k)) <==> (forall k :: 0 <= k < |steps| ==> !LosesAt(steps, k))
  {
    hide ThereAt, LosesAt;
    if forall k :: 0 <= k < |steps| ==> !LosesAt(steps, k) {
      forall k | 0 <= k <= |steps| ensures ThereAt(steps, k) { ThereUpTo(steps, k); }
    }
    if forall k :: 0 <= k <= |steps| ==> ThereAt(steps, k) {
      forall k | 0 <= k < |steps| ensures !LosesAt(steps, k) { ThereNext(steps, k); assert ThereAt(steps, k + 1); }
    }
  }
}
