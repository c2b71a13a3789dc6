/**
 The skeleton the wallet, cart, checkout, orders and support controllers share: one command
 at a time, saved, posted and cleared. Each method is the code between two awaits, proved to
 do exactly what the segment of the same name in `PendingController` says for its screen.
 */
module SingleCommand {
  import opened Wrappers
  import opened PendingController

  class SingleCommandController {
    const scope: Scope
    var active: bool
    var epoch: nat
    var locked: bool
    var busy: bool
    var intent: Option<Intent>

    /** A screen without incidents has no order, draft photo or snapshot. */
    function State(): Controller
      reads this
    {
      Controller(scope, active, epoch, locked, busy, None, false, BLANK, intent, None)
    }

    predicate Valid()
      reads this
    {
      !scope.Incidents? && (intent.Some? ==> intent.value.command.Plain?)
    }

    constructor (screen: Scope)
      requires !screen.Incidents?
      ensures State() == Mounted(screen, None) && Valid()
    {
      scope := screen;
      active, epoch, locked, busy, intent := false, 0, false, false, None;
    }

    method Start() returns (wait: Option<Task>)
      requires Valid()
      modifies this
      ensures Segment(State(), wait) == PendingController.Start(old(State())) && Valid()
    {
      active := true;
      wait := Some(Restoring);
    }

    method Stop()
      requires Valid()
      modifies this
      ensures State() == PendingController.Stop(old(State())) && Valid()
    {
      active := false;
      epoch := epoch + 1;
    }

    /** `load`: also called when a resume or a reply has just finished. */
    method Load() returns (wait: Option<Task>)
      requires Valid()
      modifies this
      ensures Segment(State(), wait) == PendingController.Refresh(old(State())) && Valid()
    {
      epoch := epoch + 1;
      busy := true;
      wait := Some(Loading(epoch));
    }

    /** The public `refresh`: refused while locked and, except on the cart and checkout
        screens, while a command is held. */
    method Refresh() returns (wait: Option<Task>)
      requires Valid()
      modifies this
      ensures Valid()
      ensures if old(locked) || (old(intent).Some? && !scope.Cart? && !scope.Checkout?)
              then State() == old(State()) && wait.None?
              else Segment(State(), wait) == PendingController.Refresh(old(State()))
    {
      if locked || (intent.Some? && !scope.Cart? && !scope.Checkout?) {
        return None;
      }
      wait := Load();
    }

    method AfterLoad(mine: nat, load: Load)
      requires Valid()
      modifies this
      ensures State() == PendingController.AfterLoad(old(State()), mine, load) && Valid()
    {
      if active && mine == epoch {
        busy := false;
      }
    }

    /** `request`, `set`, `begin`, `change`, `openTicket` and the like up to their call of
        `retry`. `fits` says the screen's form and the loaded data allow the command. */
    method Request(key: Key, request: nat, fits: bool) returns (begun: bool)
      requires Valid()
      modifies this
      ensures begun == (fits && Editable(old(State()))) && Valid()
      ensures State() == if begun then BeginRequest(old(State()), key, request) else old(State())
    {
      begun := !locked && !busy && intent.None? && fits;
      if begun {
        intent := Some(Intent(key, Plain(request)));
      }
    }

    /** Only the cart's `retry` does not look at `busy`. */
    method Retry() returns (wait: Option<Task>)
      requires Valid()
      modifies this
      ensures Segment(State(), wait) == PendingController.Retry(old(State()), true) && Valid()
    {
      if locked || (busy && !scope.Cart?) || intent.None? {
        return None;
      }
      locked := true;
      epoch := epoch + 1;
      busy := true;
      wait := Some(Saving(epoch, intent.value, None));
    }

    method Finish(mine: nat)
      requires Valid()
      modifies this
      ensures State() == PendingController.Finish(old(State()), mine) && Valid()
    {
      locked := false;
      if active && mine == epoch {
        busy := false;
      }
    }

    method AfterSave(mine: nat, current: Intent, ok: bool) returns (wait: Option<Task>)
      requires Valid()
      modifies this
      ensures Segment(State(), wait) == PendingController.AfterSave(old(State()), mine, current, ok) && Valid()
    {
      wait := None;
      if ok {
        wait := Some(Posting(mine, current));
      } else {
        Finish(mine);
      }
    }

    /** A definite answer is followed by a clear, whether the screen is still there or not. */
    method AfterReply(mine: nat, current: Intent, reply: Reply) returns (wait: Option<Task>)
      requires Valid() && current.command.Plain?
      modifies this
      ensures forall open, key ::
                Segment(State(), wait) == PendingController.AfterReply(old(State()), mine, current, reply, open, key)
      ensures Valid()
    {
      wait := None;
      match reply
      case Confirmed(_) => wait := Some(Clearing(mine, current, Success));
      case Refused(status) => wait := Some(Clearing(mine, current, Failure(status)));
      case Unknown => Finish(mine);
    }

    /** The outcome is shown only to the screen and attempt it belongs to. */
    method AfterClear(mine: nat, current: Intent, settled: Settled)
      requires Valid() && current.command.Plain?
      modifies this
      ensures State() == PendingController.AfterClear(old(State()), mine, current, settled) && Valid()
    {
      if active && mine == epoch {
        intent := None;
      }
      Finish(mine);
    }

    /** A restored command is taken over even by a screen that has been stopped. */
    method AfterRestore(found: Option<(Intent, Option<Context>)>)
      requires Valid() && (found.Some? ==> found.value.0.command.Plain?)
      modifies this
      ensures Segment(State(), None) == PendingController.AfterRestore(old(State()), found) && Valid()
    {
      if found.Some? {
        intent := Some(found.value.0);
      }
    }
  }
}
