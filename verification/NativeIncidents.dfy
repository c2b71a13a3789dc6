/**
 The incidents screen's controller as the object it is. Each method is the code between two
 awaits of one of the screen's asynchronous methods; where that awaits again, the method
 returns the `Task` that waits there. Every method is proved to do exactly what the
 segment function of the same name in `PendingController` says, so whatever is proved of the
 protocol's runs is proved of these methods.
 */
module NativeIncidents {
  import opened Wrappers
  import opened PendingController

  class NativeIncidentsController {
    var active: bool
    var epoch: nat
    var locked: bool
    var busy: bool
    var orderId: Option<nat>
    var orderLoaded: bool
    var draft: Draft
    var intent: Option<Intent>
    var snapshot: Option<Draft>

    function State(): Controller
      reads this
    {
      Controller(Incidents, active, epoch, locked, busy, orderId, orderLoaded, draft, intent, snapshot)
    }

    constructor (order: Option<nat>)
      ensures State() == Mounted(Incidents, order)
    {
      active, epoch, locked, busy := false, 0, false, false;
      orderId, orderLoaded := order, false;
      draft, intent, snapshot := BLANK, None, None;
    }

    method Start() returns (wait: Option<Task>)
      modifies this
      ensures Segment(State(), wait) == PendingController.Start(old(State()))
    {
      active := true;
      wait := Some(Restoring);
    }

    method Stop()
      modifies this
      ensures State() == PendingController.Stop(old(State()))
    {
      active := false;
      epoch := epoch + 1;
    }

    method Refresh() returns (wait: Option<Task>)
      modifies this
      ensures Segment(State(), wait) == PendingController.Refresh(old(State()))
    {
      if locked || intent.Some? {
        return None;
      }
      epoch := epoch + 1;
      busy, orderLoaded := true, false;
      wait := Some(Loading(epoch));
    }

    method AfterLoad(mine: nat, load: Load)
      modifies this
      ensures State() == PendingController.AfterLoad(old(State()), mine, load)
    {
      if active && mine == epoch {
        if load.Loaded? {
          orderLoaded := orderId.Some?;
        } else if load.unauthorized {
          draft := BLANK;
        }
        busy := false;
      }
    }

    /** The photo file the edit leaves behind is returned for deletion. */
    method EditPhoto(photo: Option<Photo>) returns (dropped: Option<nat>)
      modifies this
      ensures State() == SetPhoto(old(State()), photo)
      ensures dropped == Dropped(old(State()), photo)
    {
      dropped := None;
      if !locked && !busy && intent.None? {
        var before := draft.photo;
        if before.Some? && (photo.None? || photo.value.uri != before.value.uri) {
          dropped := Some(before.value.uri);
        }
        draft := draft.(photo := photo);
      }
    }

    method EditClaim(claim: Claim)
      modifies this
      ensures State() == SetClaim(old(State()), claim)
    {
      if !locked && !busy && intent.None? {
        draft := draft.(claim := claim);
      }
    }

    /** `report` up to its call of `retry`. */
    method Report(key: Key, fits: bool) returns (begun: bool)
      modifies this
      ensures begun == CanReport(old(State()), fits)
      ensures State() == if begun then BeginReport(old(State()), key) else old(State())
    {
      begun := false;
      if !locked && !busy && intent.None? && orderLoaded && fits && draft.photo.Some? && draft.photo.value.base64.Some? {
        snapshot := Some(draft);
        intent := Some(Intent(key, Upload(draft.photo.value.base64.value)));
        begun := true;
      }
    }

    /** `confirmReturn` up to its call of `retry`. `consented` says the buyer has consented to
        this return, its incident awaits it, and no error is shown. */
    method ConfirmReturn(key: Key, request: nat, consented: bool) returns (begun: bool)
      modifies this
      ensures begun == (consented && Editable(old(State())))
      ensures State() == if begun then BeginRequest(old(State()), key, request) else old(State())
    {
      begun := false;
      if !locked && !busy && intent.None? && consented {
        intent := Some(Intent(key, Plain(request)));
        begun := true;
      }
    }

    method CurrentContext() returns (context: Option<Context>)
      ensures context == ContextOf(State())
    {
      if snapshot.Some? && snapshot.value.photo.Some? && orderId.Some? {
        return Some(Context(orderId.value, snapshot.value.claim, snapshot.value.photo.value.uri));
      }
      return None;
    }

    method Retry(open: bool) returns (wait: Option<Task>)
      modifies this
      ensures Segment(State(), wait) == PendingController.Retry(old(State()), open)
    {
      if locked || busy || intent.None? {
        return None;
      }
      var current := intent.value;
      if current.command.Upload? && (snapshot.None? || orderId.None? || !orderLoaded) {
        return Some(Restoring);
      }
      if current.command.Upload? && !open {
        return Some(Expiring(current));
      }
      locked := true;
      epoch := epoch + 1;
      busy := true;
      var context := CurrentContext();
      wait := Some(Saving(epoch, current, context));
    }

    method Finish(mine: nat)
      modifies this
      ensures State() == PendingController.Finish(old(State()), mine)
    {
      locked := false;
      if active && mine == epoch {
        busy := false;
      }
    }

    method AfterSave(mine: nat, current: Intent, ok: bool) returns (wait: Option<Task>)
      modifies this
      ensures Segment(State(), wait) == PendingController.AfterSave(old(State()), mine, current, ok)
    {
      wait := None;
      if ok {
        wait := Some(Posting(mine, current));
      } else {
        Finish(mine);
      }
    }

    /** `key` is the identifier `uuid()` would give a follow-up command. */
    method AfterReply(mine: nat, current: Intent, reply: Reply, open: bool, key: Key) returns (wait: Option<Task>)
      modifies this
      ensures Segment(State(), wait) == PendingController.AfterReply(old(State()), mine, current, reply, open, key)
    {
      wait := None;
      var context := CurrentContext();
      match reply
      case Confirmed(evidence) =>
        if !active || mine != epoch {
          Finish(mine);
        } else if current.command.Upload? {
          var next := Discard(evidence);
          if snapshot.Some? && orderId.Some? && orderLoaded && open {
            next := Command.Report(orderId.value, snapshot.value.claim, evidence);
          }
          wait := Some(Advancing(mine, current, Intent(key, next), context, Uploaded));
        } else {
          wait := Some(Clearing(mine, current, Success));
        }
      case Refused(status) =>
        if current.command.Report? {
          var next := Intent(key, Discard(current.command.evidence));
          wait := Some(Advancing(mine, current, next, context, Withdrawn(status)));
        } else if current.command.Discard? && status.Unauthorized? {
          if active && mine == epoch {
            orderLoaded := false;
          }
          Finish(mine);
        } else {
          wait := Some(Clearing(mine, current, Failure(status)));
        }
      case Unknown => Finish(mine);
    }

    method AfterAdvance(mine: nat, prior: Intent, next: Intent, why: Why, ok: bool) returns (wait: Option<Task>)
      modifies this
      ensures Segment(State(), wait) == PendingController.AfterAdvance(old(State()), mine, prior, next, why, ok)
    {
      wait := None;
      if ok {
        intent := Some(next);
        if why.Withdrawn? && why.status.Unauthorized? && active && mine == epoch {
          orderLoaded := false;
        }
        Finish(mine);
      } else if why.Withdrawn? {
        wait := Some(Clearing(mine, prior, Failure(why.status)));
      } else {
        Finish(mine);
      }
    }

    method AfterClear(mine: nat, current: Intent, settled: Settled)
      modifies this
      ensures State() == PendingController.AfterClear(old(State()), mine, current, settled)
    {
      if settled.Success? {
        snapshot, intent, draft := None, None, BLANK;
      } else if active && mine == epoch {
        intent, snapshot := None, None;
        if settled.status.Unauthorized? {
          orderLoaded, draft := false, BLANK;
        } else if current.command.Upload? || current.command.Discard? {
          draft := draft.(photo := None);
        }
      }
      Finish(mine);
    }

    method AfterExpiry()
      modifies this
      ensures State() == PendingController.AfterExpiry(old(State()))
    {
      snapshot, intent, draft := None, None, BLANK;
    }

    method AfterRestore(found: Option<(Intent, Option<Context>)>) returns (wait: Option<Task>)
      modifies this
      ensures Segment(State(), wait) == PendingController.AfterRestore(old(State()), found)
    {
      if found.None? {
        wait := Refresh();
        return;
      }
      var restored, context := found.value.0, found.value.1;
      if context.Some? {
        orderId := Some(context.value.order);
        var base64: Option<nat> := None;
        if restored.command.Upload? {
          base64 := Some(restored.command.base64);
        }
        snapshot := Some(Draft(context.value.claim, Some(Photo(context.value.photo, base64))));
      }
      wait := Some(Resuming(restored));
    }

    method AfterResume(restored: Intent, listsLoaded: bool)
      modifies this
      ensures State() == PendingController.AfterResume(old(State()), restored, listsLoaded)
    {
      if listsLoaded && active {
        intent, orderLoaded := Some(restored), orderId.Some?;
        if snapshot.Some? {
          draft := snapshot.value;
        }
      }
    }
  }
}
