/** The initialise-once gate of the `time_local` crate (src/lib.rs).

    The crate keeps the local UTC offset in a process-wide write-once slot,
    `UTC_OFFSET`. `init` asks the platform for the offset and stores it;
    `cached_local_offset` hands the stored offset back. Misuse (reading
    before a successful `init`, or a second successful `init`) panics with
    one fixed message, while a failing platform query is an ordinary error.
    `to_local` converts a date-time with a fresh query and never looks at
    the slot.

    The slot is modelled sequentially. The platform's offset queries are
    parameters holding their result, and the date arithmetic of the `time`
    crate is a function parameter. */
module TimeLocal {
  import opened Wrappers

  /** `time::UtcOffset`: a fixed offset from UTC, kept abstract. */
  type Offset(==)

  /** `time::OffsetDateTime`: an instant with its offset, kept abstract. */
  type OffsetDateTime(==)

  /** `time::error::IndeterminateOffset`: the platform could not determine
      the local offset. */
  datatype IndeterminateOffset = IndeterminateOffset

  /** What the platform query `UtcOffset::current_local_offset` returned. */
  type Query = Result<Offset, IndeterminateOffset>

  /** What `init` returns when it does not panic. */
  type InitResult = Result<(), IndeterminateOffset>

  /** The one message every misuse of the gate panics with. */
  const InitErrorMessage: string :=
    "call `time_local::init()` once during application initialization before spawning threads"

  /** `utc_offset_init_error`: diverges (type `!`) by panicking with the
      fixed message, so it never produces a value of any type. */
  function InitError<T>(): (r: Outcome<T>)
    ensures !r.Returned?
    ensures r.message == InitErrorMessage
  {
    Panicked(InitErrorMessage)
  }

  /** The static `UTC_OFFSET: OnceLock<UtcOffset>`: empty, or holding the
      offset it was first set to. */
  class OffsetCell {
    var slot: Option<Offset>

    /** `OnceLock::new()`: the slot starts empty. */
    constructor ()
      ensures slot == None
    {
      slot := None;
    }

    /** `OnceLock::get`: the stored offset, if any; reading changes nothing. */
    method Get() returns (r: Option<Offset>)
      ensures r == slot
    {
      r := slot;
    }

    /** `OnceLock::set`: fills an empty slot; an occupied slot is left as it
        is and the rejected value comes back as the error. */
    method Set(value: Offset) returns (r: Result<(), Offset>)
      modifies this
      ensures old(slot).None? ==> slot == Some(value) && r == Ok(())
      ensures old(slot).Some? ==> slot == old(slot) && r == Err(value)
    {
      if slot.None? {
        slot := Some(value);
        r := Ok(());
      } else {
        r := Err(value);
      }
    }
  }

  /** One call of `init`, on the slot's value: the new slot and how the call
      ends. The query is looked at first, so a failing query is reported as
      an error whether or not the slot is occupied. */
  function InitStep(slot: Option<Offset>, query: Query): (r: (Option<Offset>, Outcome<InitResult>))
    // a failing query is returned as the error and touches nothing
    ensures query.Err? ==> r.0 == slot && r.1 == Returned(Err(query.error))
    // a successful query on an empty slot stores exactly that offset
    ensures query.Ok? && slot.None? ==> r.0 == Some(query.value) && r.1 == Returned(Ok(()))
    // a successful query on an occupied slot panics and keeps the old offset
    ensures query.Ok? && slot.Some? ==> r.0 == slot && r.1 == InitError()
    // the slot is never cleared and never overwritten
    ensures slot.Some? ==> r.0 == slot
    // `init` returns Ok(()) exactly when it is the call that fills the slot
    ensures r.1 == Returned(Ok(())) <==> slot.None? && r.0.Some?
  {
    match query
    case Err(e) => (slot, Returned(Err(e)))
    case Ok(offset) =>
      match slot
      case None => (Some(offset), Returned(Ok(())))
      case Some(_) => (slot, InitError())
  }

  /** One call of `cached_local_offset`, on the slot's value. */
  function ReadStep(slot: Option<Offset>): (r: Outcome<Offset>)
    // it panics exactly when the slot is empty, and then with the fixed message
    ensures r.Panicked? <==> slot.None?
    ensures r.Panicked? ==> r == InitError()
    // otherwise it yields the stored offset
    ensures r.Returned? ==> slot == Some(r.value)
  {
    match slot
    case None => InitError()
    case Some(offset) => Returned(offset)
  }

  /** `init`: query first (the `?` returns a failure before the slot is
      touched), then set the slot, panicking if it was already set. */
  method Init(utcOffset: OffsetCell, query: Query) returns (r: Outcome<InitResult>)
    modifies utcOffset
    ensures (utcOffset.slot, r) == InitStep(old(utcOffset.slot), query)
    ensures query.Err? ==> utcOffset.slot == old(utcOffset.slot) && r == Returned(Err(query.error))
    ensures query.Ok? && old(utcOffset.slot).None? ==>
              utcOffset.slot == Some(query.value) && r == Returned(Ok(()))
    ensures query.Ok? && old(utcOffset.slot).Some? ==>
              utcOffset.slot == old(utcOffset.slot) && r == Panicked(InitErrorMessage)
  {
    if query.Err? {
      return Returned(Err(query.error));
    }
    var stored := utcOffset.Set(query.value);
    if stored.Err? {
      return InitError();
    }
    return Returned(Ok(()));
  }

  /** `UtcOffsetExt::cached_local_offset`: the stored offset, or the fixed
      panic if `init` has not succeeded; the slot is only read. */
  method CachedLocalOffset(utcOffset: OffsetCell) returns (r: Outcome<Offset>)
    ensures r == ReadStep(utcOffset.slot)
    ensures utcOffset.slot.None? <==> r == Panicked(InitErrorMessage)
    ensures utcOffset.slot.Some? ==> r == Returned(utcOffset.slot.value)
  {
    var stored := utcOffset.Get();
    match stored
    case None => r := InitError();
    case Some(offset) => r := Returned(offset);
  }

  /** `OffsetDateTimeExt::to_local`: shifts `self` to the offset that a
      fresh platform query `UtcOffset::local_offset_at(self)` yields
      (`localOffsetAt` is that query's result), or returns the query's
      error. It reads no slot, so no state of the gate can affect it.
      `toOffset` stands for `OffsetDateTime::to_offset`. */
  function ToLocal(self: OffsetDateTime, localOffsetAt: Query,
                   toOffset: (OffsetDateTime, Offset) -> OffsetDateTime): (r: Result<OffsetDateTime, IndeterminateOffset>)
    // it fails exactly when the fresh query fails, with that query's error
    ensures r.Err? <==> localOffsetAt.Err?
    ensures r.Err? ==> r.error == localOffsetAt.error
    // otherwise it is `self` shifted to the freshly queried offset
    ensures r.Ok? ==> r.value == toOffset(self, localOffsetAt.value)
  {
    match localOffsetAt
    case Err(e) => Err(e)
    case Ok(offset) => Ok(toOffset(self, offset))
  }
}
