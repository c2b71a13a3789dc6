/** What every run of the pending-command protocol keeps. */
module PendingInvariants {
  import opened Wrappers
  import opened PendingSlot
  import opened PendingController
  import opened PendingWorld

  /** A key names one command. For an upload the picture may differ only after a save has
      stored it with another picture. */
  predicate MadeOk(w: World, i: Intent) {
    && i.key in w.log.made
    && (i.command.Upload? <==> w.log.made[i.key].Upload?)
    && (!i.command.Upload? || !w.log.crossed ==> i.command == w.log.made[i.key])
  }

  /** A command some controller holds. A report has been in the slot, and it is the only
      one for its evidence until an upload is respent. */
  predicate IntentOk(w: World, i: Intent) {
    && MadeOk(w, i)
    && (i.command.Report? ==>
        && i.key in w.log.written && i.command.evidence in w.log.reported
        && (!w.log.respent ==> w.log.reported[i.command.evidence] == i.key))
  }

  predicate PhotoOk(w: World, d: Draft) {
    d.photo.Some? ==>
      && d.photo.value.uri in w.pixels
      && (d.photo.value.base64.Some? ==> w.pixels[d.photo.value.uri] == d.photo.value.base64.value)
  }

  /** The snapshot's photo is the picture the upload sends. */
  predicate Matches(w: World, snapshot: Option<Draft>, i: Intent) {
    !w.log.overlapped && i.command.Upload? && snapshot.Some? && snapshot.value.photo.Some? ==>
      Picture(w, snapshot.value.photo.value.uri) == i.command.base64
  }

  predicate ControllerOk(w: World, c: Controller) {
    && PhotoOk(w, c.draft)
    && (c.snapshot.Some? ==> PhotoOk(w, c.snapshot.value))
    && (c.intent.Some? ==> IntentOk(w, c.intent.value) && Matches(w, c.snapshot, c.intent.value))
  }

  predicate ContextOk(w: World, context: Option<Context>) {
    context.Some? ==> context.value.photo in w.pixels
  }

  predicate TaskOk(w: World, snapshot: Option<Draft>, t: Task) {
    match t
    case Saving(_, i, context) =>
      && IntentOk(w, i) && ContextOk(w, context)
      && (!w.log.overlapped && i.command.Upload? && context.Some? ==>
          Picture(w, context.value.photo) == i.command.base64)
    case Posting(_, i) => IntentOk(w, i) && i in w.log.posted
    case Advancing(_, prior, next, context, why) =>
      && IntentOk(w, prior) && prior.key in w.log.resolved
      && MadeOk(w, next) && !next.command.Upload? && ContextOk(w, context)
      && (next.command.Report? ==>
          && prior.command.Upload? && next.command.evidence in w.issued
          && w.issued[next.command.evidence] == prior.key)
    case Clearing(_, i, _) => IntentOk(w, i) && i.key in w.log.resolved
    case Expiring(i) => i.key in w.log.made && w.log.made[i.key].Upload?
    case Resuming(i) => IntentOk(w, i) && Matches(w, snapshot, i)
    case _ => true
  }

  predicate ControllersOk(w: World) {
    forall id :: id in w.controllers ==> ControllerOk(w, w.controllers[id])
  }

  predicate JobsOk(w: World) {
    forall j :: j in w.jobs ==> j.owner in w.controllers && TaskOk(w, w.controllers[j.owner].snapshot, j.at)
  }

  predicate SlotOk(w: World) {
    w.slot.Some? ==>
      var r := w.slot.value;
      && r.key in w.log.written && ContextOk(w, r.context) && (r.command.None? ==> r.context.Some? && r.scope.Incidents?)
      && (r.command.Some? ==> !r.command.value.Upload? && (r.command.value.Plain? || r.scope.Incidents?))
      && IntentOk(w, Rebuilt(w, r))
      && (!w.log.respent && r.command.None? ==> !Spent(w, r.key))
  }

  /** Write-ahead and one unresolved command: a key that was ever in the slot is in it
      still, has a definite answer, or was abandoned. */
  predicate Held(w: World, k: Key) {
    Holds(w, k) || k in w.log.resolved || k in w.log.abandoned
  }

  predicate WrittenOk(w: World) {
    && (forall k :: k in w.log.written ==> k in w.log.made && Held(w, k))
    && (forall k :: k in w.log.abandoned ==> k in w.log.made && w.log.made[k].Upload?)
  }

  predicate PostedOk(w: World) {
    forall i :: i in w.log.posted ==> IntentOk(w, i) && i.key in w.log.written
  }

  /** Only a posted command gets an answer. */
  predicate ResolvedOk(w: World) {
    forall k :: k in w.log.resolved ==> exists i :: i in w.log.posted && i.key == k
  }

  /** A snapshot always matches its upload until a resume overlaps another upload. */
  predicate MarksOk(w: World) {
    w.log.crossed ==> w.log.overlapped
  }

  predicate EvidenceOk(w: World) {
    && (forall e :: e in w.issued ==>
        && w.issued[e] in w.log.written && w.issued[e] in w.log.made && w.log.made[w.issued[e]].Upload?)
    && (forall e, f :: e in w.issued && f in w.issued && w.issued[e] == w.issued[f] ==> e == f)
    && (forall e :: e in w.log.reported ==>
        && e in w.issued && w.log.reported[e] in w.log.written && w.log.reported[e] in w.log.made
        && w.log.made[w.log.reported[e]].Report? && w.log.made[w.log.reported[e]].evidence == e)
    && (forall k :: k in w.log.made && (w.log.made[k].Report? || w.log.made[k].Discard?) ==>
        w.log.made[k].evidence in w.issued)
  }

  predicate HistoryOk(w: World) {
    WrittenOk(w) && PostedOk(w) && EvidenceOk(w) && ResolvedOk(w) && MarksOk(w)
  }

  predicate Inv(w: World) {
    ControllersOk(w) && JobsOk(w) && SlotOk(w) && HistoryOk(w)
  }

  predicate Grows(w: World, n: World) {
    && (forall k :: k in w.log.made ==> k in n.log.made && n.log.made[k] == w.log.made[k])
    && (forall u :: u in w.pixels ==> u in n.pixels && n.pixels[u] == w.pixels[u])
    && (forall e :: e in w.issued ==> e in n.issued && n.issued[e] == w.issued[e])
    && (forall e :: e in w.log.reported ==>
        e in n.log.reported && (!n.log.respent ==> n.log.reported[e] == w.log.reported[e]))
    && w.log.written <= n.log.written && w.log.posted <= n.log.posted && w.log.resolved <= n.log.resolved
    && (w.log.overlapped ==> n.log.overlapped) && (w.log.crossed ==> n.log.crossed) && (w.log.respent ==> n.log.respent)
  }

  lemma IntentGrows(w: World, n: World, i: Intent)
    requires Grows(w, n) && IntentOk(w, i)
    ensures IntentOk(n, i)
  {
  }

  lemma TaskGrows(w: World, n: World, snapshot: Option<Draft>, t: Task)
    requires Grows(w, n) && TaskOk(w, snapshot, t) && (snapshot.Some? ==> PhotoOk(w, snapshot.value))
    ensures TaskOk(n, snapshot, t)
  {
  }

  lemma ControllerGrows(w: World, n: World, c: Controller)
    requires Grows(w, n) && ControllerOk(w, c)
    ensures ControllerOk(n, c)
  {
  }

  /** Changes to storage, the server and the history leave the controllers in order. */
  lemma StorageKeeps(w: World, n: World)
    requires Inv(w) && Grows(w, n) && n.controllers == w.controllers && n.jobs == w.jobs
    requires SlotOk(n) && HistoryOk(n)
    ensures Inv(n)
  {
    hide SlotOk, HistoryOk, Grows, TaskOk, ControllerOk;
    forall id | id in n.controllers
      ensures ControllerOk(n, n.controllers[id])
    {
      ControllerGrows(w, n, n.controllers[id]);
    }
    forall j | j in n.jobs
      ensures j.owner in n.controllers && TaskOk(n, n.controllers[j.owner].snapshot, j.at)
    {
      assert ControllerOk(w, w.controllers[j.owner]);
      SnapshotPhoto(w, w.controllers[j.owner]);
      TaskGrows(w, n, w.controllers[j.owner].snapshot, j.at);
    }
  }

  lemma SnapshotPhoto(w: World, c: Controller)
    requires ControllerOk(w, c)
    ensures c.snapshot.Some? ==> PhotoOk(w, c.snapshot.value)
  {
  }

  /** The snapshot suits every command its controller is resuming. */
  predicate SnapshotSuits(w: World, id: nat, snapshot: Option<Draft>) {
    forall j :: j in w.jobs && j.owner == id && j.at.Resuming? ==> Matches(w, snapshot, j.at.intent)
  }

  /** One controller moves; everything else stays. */
  lemma GoKeeps(w: World, id: nat, s: Segment)
    requires Inv(w) && ControllerOk(w, s.c) && SnapshotSuits(w, id, s.c.snapshot)
    requires s.wait.Some? ==> TaskOk(w, s.c.snapshot, s.wait.value)
    ensures Inv(Go(w, id, s))
  {
    hide IntentOk, Matches, PhotoOk;
    var n := Go(w, id, s);
    assert n.slot == w.slot && n.log == w.log && n.pixels == w.pixels && n.issued == w.issued;
    assert HistoryOk(n) && SlotOk(n) by { SameHistory(w, n); }
    hide HistoryOk, SlotOk;
    forall i | i in n.controllers
      ensures ControllerOk(n, n.controllers[i])
    {
      SameController(w, n, n.controllers[i]);
    }
    forall j | j in n.jobs
      ensures j.owner in n.controllers && TaskOk(n, n.controllers[j.owner].snapshot, j.at)
    {
      if j in w.jobs {
        if j.owner == id {
          assert TaskOk(w, w.controllers[id].snapshot, j.at);
          assert j.at.Resuming? ==> Matches(w, s.c.snapshot, j.at.intent);
          OtherSnapshot(w, w.controllers[id].snapshot, s.c.snapshot, j.at);
        }
      }
      SameTask(w, n, n.controllers[j.owner].snapshot, j.at);
    }
  }

  predicate SameButControllers(w: World, n: World) {
    n.slot == w.slot && n.log == w.log && n.pixels == w.pixels && n.issued == w.issued
  }

  lemma SameHistory(w: World, n: World)
    requires SameButControllers(w, n) && HistoryOk(w) && SlotOk(w)
    ensures HistoryOk(n) && SlotOk(n)
  {
  }

  lemma SameController(w: World, n: World, c: Controller)
    requires SameButControllers(w, n)
    ensures ControllerOk(w, c) ==> ControllerOk(n, c)
  {
  }

  lemma SameTask(w: World, n: World, snapshot: Option<Draft>, t: Task)
    requires SameButControllers(w, n)
    ensures TaskOk(w, snapshot, t) ==> TaskOk(n, snapshot, t)
  {
  }

  lemma OtherSnapshot(w: World, before: Option<Draft>, after: Option<Draft>, t: Task)
    requires TaskOk(w, before, t) && (t.Resuming? ==> Matches(w, after, t.intent))
    ensures TaskOk(w, after, t)
  {
  }

  lemma ResumeKeeps(w: World, j: Job, s: Segment)
    requires Inv(w) && ControllerOk(w, s.c) && SnapshotSuits(w, j.owner, s.c.snapshot)
    requires s.wait.Some? ==> TaskOk(w, s.c.snapshot, s.wait.value)
    ensures Inv(Resume(w, j, s))
  {
    hide IntentOk, Matches, PhotoOk, ControllerOk, TaskOk;
    var n := w.(jobs := w.jobs - multiset{j});
    SameHistory(w, n);
    assert forall i :: i in n.jobs ==> i in w.jobs;
    forall id | id in n.controllers ensures ControllerOk(n, n.controllers[id]) { SameController(w, n, n.controllers[id]); }
    forall i | i in n.jobs ensures i.owner in n.controllers && TaskOk(n, n.controllers[i.owner].snapshot, i.at) {
      SameTask(w, n, n.controllers[i.owner].snapshot, i.at);
    }
    SameController(w, n, s.c);
    if s.wait.Some? { SameTask(w, n, s.c.snapshot, s.wait.value); }
    forall i | i in n.jobs && i.owner == j.owner && i.at.Resuming? ensures Matches(n, s.c.snapshot, i.at.intent) {
      SameMatches(w, n, s.c.snapshot, i.at.intent);
    }
    GoKeeps(n, j.owner, s);
  }

  lemma SameMatches(w: World, n: World, snapshot: Option<Draft>, i: Intent)
    requires SameButControllers(w, n)
    ensures Matches(w, snapshot, i) ==> Matches(n, snapshot, i)
  {
  }
}
