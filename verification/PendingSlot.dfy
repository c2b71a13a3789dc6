/**
 The one durable slot the mobile client keeps its unresolved command in. Each operation
 reads the slot and then writes it; the model takes the pair as one atomic step.
 */
module PendingSlot {
  import opened Wrappers

  /** How device storage answered: it worked, it failed before applying a write, or the
      write was applied and the client was told it failed. */
  datatype Fault = Working | NotApplied | AppliedUnheard

  /** The slot afterwards, and whether the caller saw the call succeed. */
  datatype Outcome<R> = Outcome(slot: Option<R>, ok: bool)

  /** An empty slot takes the record; an equal record is accepted without a write; any
      other record is refused. */
  function Save<R(==)>(slot: Option<R>, r: R, fault: Fault): Outcome<R> {
    if fault.NotApplied? then Outcome(slot, false)
    else if slot.None? then Outcome(Some(r), fault.Working?)
    else Outcome(slot, slot == Some(r))
  }

  /** Replaces the record whose key the caller named; `held` says the slot has that key. */
  function Advance<R>(slot: Option<R>, held: bool, r: R, fault: Fault): Outcome<R> {
    if fault.NotApplied? || !held then Outcome(slot, false) else Outcome(Some(r), fault.Working?)
  }

  /** Removes the record whose key the caller named. Success means the slot is empty. */
  function Clear<R>(slot: Option<R>, held: bool, fault: Fault): Outcome<R> {
    if fault.NotApplied? then Outcome(slot, false)
    else if slot.None? then Outcome(None, true)
    else if held then Outcome(None, fault.Working?)
    else Outcome(slot, false)
  }
}
