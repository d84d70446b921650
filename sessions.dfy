/** Sequences of calls to the gate of src/lib.rs, run one after another on
    one slot, as a single thread of the process sees them. A panic ends the
    session: no later call runs. The lemmas state what the gate promises
    over any such session, and the scenarios replay the crate's tests on
    the `OffsetCell` methods. */
module Sessions {
  import opened Wrappers
  import opened TimeLocal

  /** A call a program can make on the crate's public surface. */
  datatype Call =
    | InitCall(query: Query)                                  // `init()`, with the platform's answer
    | ReadCall                                                // `UtcOffset::cached_local_offset()`
    | ToLocalCall(at: OffsetDateTime, localOffsetAt: Query)   // `at.to_local()`, with a fresh query's answer

  /** What a call that did not panic handed back. */
  datatype Event =
    | InitReturned(result: InitResult)
    | ReadReturned(offset: Offset)
    | ToLocalReturned(converted: Result<OffsetDateTime, IndeterminateOffset>)

  /** The slot at the end, the values the calls returned in order, and the
      panic message that stopped the session, if one did. */
  datatype Session = Session(slot: Option<Offset>, events: seq<Event>, panic: Option<string>)

  /** The slot only ever moves from empty to occupied. */
  predicate Grows(before: Option<Offset>, after: Option<Offset>)
  {
    before.Some? ==> after == before
  }

  function Emit(e: Event, s: Session): Session
  {
    s.(events := [e] + s.events)
  }

  /** Runs `calls` in order from a slot holding `slot`. */
  function Run(slot: Option<Offset>, calls: seq<Call>,
               toOffset: (OffsetDateTime, Offset) -> OffsetDateTime): Session
    decreases |calls|
  {
    if |calls| == 0 then Session(slot, [], None)
    else
      match calls[0]
      case InitCall(query) =>
        var step := InitStep(slot, query);
        (match step.1
         case Panicked(m) => Session(step.0, [], Some(m))
         case Returned(res) => Emit(InitReturned(res), Run(step.0, calls[1..], toOffset)))
      case ReadCall =>
        (match ReadStep(slot)
         case Panicked(m) => Session(slot, [], Some(m))
         case Returned(offset) => Emit(ReadReturned(offset), Run(slot, calls[1..], toOffset)))
      case ToLocalCall(at, localOffsetAt) =>
        Emit(ToLocalReturned(ToLocal(at, localOffsetAt, toOffset)), Run(slot, calls[1..], toOffset))
  }

  /** An `init` call whose platform query succeeds. */
  predicate SucceedingInit(c: Call)
  {
    c.InitCall? && c.query.Ok?
  }

  /** The number of `init` calls that returned `Ok(())`. */
  function CountInitOk(events: seq<Event>): nat
  {
    if |events| == 0 then 0
    else (if events[0] == InitReturned(Ok(())) then 1 else 0) + CountInitOk(events[1..])
  }

  /** The calls other than `to_local`. */
  function GateCalls(calls: seq<Call>): seq<Call>
  {
    if |calls| == 0 then []
    else (if calls[0].ToLocalCall? then [] else [calls[0]]) + GateCalls(calls[1..])
  }

  /** The events other than those of `to_local`. */
  function GateEvents(events: seq<Event>): seq<Event>
  {
    if |events| == 0 then []
    else (if events[0].ToLocalReturned? then [] else [events[0]]) + GateEvents(events[1..])
  }

  /** Once set, the slot is never cleared and its offset never changes,
      whatever is called afterwards. */
  lemma {:induction false} RunSlotGrows(slot: Option<Offset>, calls: seq<Call>,
                                        toOffset: (OffsetDateTime, Offset) -> OffsetDateTime)
    ensures Grows(slot, Run(slot, calls, toOffset).slot)
    decreases |calls|
  {
    if |calls| > 0 {
      match calls[0]
      case InitCall(query) =>
        var (next, out) := InitStep(slot, query);
        if out.Returned? {
          RunSlotGrows(next, calls[1..], toOffset);
        }
      case ReadCall =>
        if slot.Some? {
          RunSlotGrows(slot, calls[1..], toOffset);
        }
      case ToLocalCall(_, _) =>
        RunSlotGrows(slot, calls[1..], toOffset);
    }
  }

  /** Every read that returns yields the offset the slot holds at the end of
      the session: reads never see a stale, default or different value. */
  lemma {:induction false} RunReadsSeeStoredOffset(slot: Option<Offset>, calls: seq<Call>,
                                                   toOffset: (OffsetDateTime, Offset) -> OffsetDateTime)
    ensures var s := Run(slot, calls, toOffset);
      forall e | e in s.events && e.ReadReturned? :: s.slot == Some(e.offset)
    decreases |calls|
  {
    if |calls| > 0 {
      var rest := calls[1..];
      match calls[0]
      case InitCall(query) =>
        var (next, out) := InitStep(slot, query);
        if out.Returned? {
          RunReadsSeeStoredOffset(next, rest, toOffset);
        }
      case ReadCall =>
        if slot.Some? {
          RunReadsSeeStoredOffset(slot, rest, toOffset);
          RunSlotGrows(slot, rest, toOffset);
        }
      case ToLocalCall(_, _) =>
        RunReadsSeeStoredOffset(slot, rest, toOffset);
    }
  }

  /** Repeated reads in one session all return the same offset. */
  lemma RunReadsAgree(slot: Option<Offset>, calls: seq<Call>,
                      toOffset: (OffsetDateTime, Offset) -> OffsetDateTime, i: nat, j: nat)
    requires i < |Run(slot, calls, toOffset).events| && j < |Run(slot, calls, toOffset).events|
    requires Run(slot, calls, toOffset).events[i].ReadReturned?
    requires Run(slot, calls, toOffset).events[j].ReadReturned?
    ensures Run(slot, calls, toOffset).events[i] == Run(slot, calls, toOffset).events[j]
  {
    RunReadsSeeStoredOffset(slot, calls, toOffset);
  }

  /** `init` returns `Ok(())` at most once in a session, and exactly once
      when the session is the one that fills an empty slot. */
  lemma {:induction false} RunInitSucceedsOnce(slot: Option<Offset>, calls: seq<Call>,
                                               toOffset: (OffsetDateTime, Offset) -> OffsetDateTime)
    ensures var s := Run(slot, calls, toOffset);
      CountInitOk(s.events) == if slot.None? && s.slot.Some? then 1 else 0
    decreases |calls|
  {
    if |calls| > 0 {
      var rest := calls[1..];
      var s := Run(slot, calls, toOffset);
      match calls[0]
      case InitCall(query) =>
        var (next, out) := InitStep(slot, query);
        if out.Returned? {
          RunInitSucceedsOnce(next, rest, toOffset);
          RunSlotGrows(next, rest, toOffset);
          assert s.events[1..] == Run(next, rest, toOffset).events;
        }
      case ReadCall =>
        if slot.Some? {
          RunInitSucceedsOnce(slot, rest, toOffset);
          assert s.events[1..] == Run(slot, rest, toOffset).events;
        }
      case ToLocalCall(_, _) =>
        RunInitSucceedsOnce(slot, rest, toOffset);
        assert s.events[1..] == Run(slot, rest, toOffset).events;
    }
  }

  /** Reading the cached offset before any `init` whose query succeeded
      panics with the fixed message, leaves the slot empty and never
      yields an offset. */
  lemma {:induction false} RunReadBeforeInitPanics(slot: Option<Offset>, calls: seq<Call>,
                                                   toOffset: (OffsetDateTime, Offset) -> OffsetDateTime, k: nat)
    requires slot.None?
    requires k < |calls| && calls[k] == ReadCall
    requires forall i | 0 <= i < k :: !SucceedingInit(calls[i])
    ensures var s := Run(slot, calls, toOffset);
      s.panic == Some(InitErrorMessage) && s.slot.None? &&
      forall i | 0 <= i < |s.events| :: !s.events[i].ReadReturned?
    decreases k
  {
    if k > 0 {
      RunReadBeforeInitPanics(slot, calls[1..], toOffset, k - 1);
    }
  }

  /** From an occupied slot, a later `init` whose query succeeds panics
      with the fixed message, unless the session has already panicked. */
  lemma {:induction false} RunReinitPanics(slot: Option<Offset>, calls: seq<Call>,
                                           toOffset: (OffsetDateTime, Offset) -> OffsetDateTime, j: nat)
    requires slot.Some?
    requires j < |calls| && SucceedingInit(calls[j])
    ensures var s := Run(slot, calls, toOffset);
      s.panic == Some(InitErrorMessage) && s.slot == slot
    decreases j
  {
    if j > 0 && !SucceedingInit(calls[0]) {
      RunReinitPanics(slot, calls[1..], toOffset, j - 1);
    }
  }

  /** A session with two `init` calls whose queries both succeed always
      panics with the fixed message (at the second one, or earlier at a
      read that came before the first), so `init` can never succeed twice. */
  lemma {:induction false} RunDoubleInitPanics(slot: Option<Offset>, calls: seq<Call>,
                                               toOffset: (OffsetDateTime, Offset) -> OffsetDateTime, i: nat, j: nat)
    requires i < j < |calls|
    requires SucceedingInit(calls[i]) && SucceedingInit(calls[j])
    ensures Run(slot, calls, toOffset).panic == Some(InitErrorMessage)
    decreases i
  {
    if slot.Some? {
      RunReinitPanics(slot, calls, toOffset, i);
    } else if SucceedingInit(calls[0]) {
      RunReinitPanics(Some(calls[0].query.value), calls[1..], toOffset, j - 1);
    } else if calls[0] != ReadCall {
      RunDoubleInitPanics(slot, calls[1..], toOffset, i - 1, j - 1);
    }
  }

  /** `to_local` calls never touch the slot: removing them from a session
      leaves its final slot, its panic and every other call's result as
      they were. */
  lemma {:induction false} RunIgnoresToLocal(slot: Option<Offset>, calls: seq<Call>,
                                             toOffset: (OffsetDateTime, Offset) -> OffsetDateTime)
    ensures var s := Run(slot, calls, toOffset);
      var g := Run(slot, GateCalls(calls), toOffset);
      s.slot == g.slot && s.panic == g.panic && GateEvents(s.events) == g.events
    decreases |calls|
  {
    if |calls| > 0 {
      var c, rest := calls[0], calls[1..];
      RunIgnoresToLocal(slot, rest, toOffset);
      var tail := Run(slot, rest, toOffset);
      if c.ToLocalCall? {
        assert GateCalls(calls) == GateCalls(rest);
        var e := ToLocalReturned(ToLocal(c.at, c.localOffsetAt, toOffset));
        assert ([e] + tail.events)[1..] == tail.events;
      } else {
        var gs := GateCalls(calls);
        assert gs == [c] + GateCalls(rest);
        assert gs[0] == c && gs[1..] == GateCalls(rest);
        if c.InitCall? {
          var (next, out) := InitStep(slot, c.query);
          if out.Returned? {
            RunIgnoresToLocal(next, rest, toOffset);
            var t := Run(next, rest, toOffset);
            assert ([InitReturned(out.value)] + t.events)[1..] == t.events;
          }
        } else if slot.Some? {
          assert ([ReadReturned(slot.value)] + tail.events)[1..] == tail.events;
        }
      }
    }
  }

  /** `to_local` answers from its own fresh query even when the slot holds
      an offset: a failing query fails the conversion, and a succeeding one
      is used instead of the stored offset. */
  lemma ToLocalIgnoresCachedOffset(stored: Offset, at: OffsetDateTime, localOffsetAt: Query,
                                   toOffset: (OffsetDateTime, Offset) -> OffsetDateTime)
    ensures var s := Run(Some(stored), [ToLocalCall(at, localOffsetAt)], toOffset);
      s.slot == Some(stored) && s.panic.None? &&
      s.events == [ToLocalReturned(if localOffsetAt.Err? then Err(localOffsetAt.error)
                                   else Ok(toOffset(at, localOffsetAt.value)))]
  {
  }

  /** A failing `init` returns the error and changes nothing, so a session
      continues as if the call had not been made and a later `init` may
      still succeed. */
  lemma FailedInitChangesNothing(slot: Option<Offset>, e: IndeterminateOffset, rest: seq<Call>,
                                 toOffset: (OffsetDateTime, Offset) -> OffsetDateTime)
    ensures var s := Run(slot, [InitCall(Err(e))] + rest, toOffset);
      var t := Run(slot, rest, toOffset);
      s.slot == t.slot && s.panic == t.panic && s.events == [InitReturned(Err(e))] + t.events
  {
  }

  /** tests/no_init.rs: reading without `init` panics with the message. */
  method NoInit() returns (read: Outcome<Offset>)
    ensures read == Panicked(InitErrorMessage)
  {
    var utcOffset := new OffsetCell();
    read := CachedLocalOffset(utcOffset);
  }

  /** tests/double_init.rs: the first `init` succeeds, the second panics
      with the message, and the first offset stays stored. */
  method DoubleInit(first: Offset, second: Offset) returns (r1: Outcome<InitResult>, r2: Outcome<InitResult>, stored: Option<Offset>)
    ensures r1 == Returned(Ok(()))
    ensures r2 == Panicked(InitErrorMessage)
    ensures stored == Some(first)
  {
    var utcOffset := new OffsetCell();
    r1 := Init(utcOffset, Ok(first));
    r2 := Init(utcOffset, Ok(second));
    stored := utcOffset.slot;
  }

  /** tests/main.rs: after a successful `init`, reads return the queried
      offset, again and again. */
  method CachedAfterInit(offset: Offset) returns (r: Outcome<InitResult>, read1: Outcome<Offset>, read2: Outcome<Offset>)
    ensures r == Returned(Ok(()))
    ensures read1 == Returned(offset) && read2 == Returned(offset)
  {
    var utcOffset := new OffsetCell();
    r := Init(utcOffset, Ok(offset));
    read1 := CachedLocalOffset(utcOffset);
    read2 := CachedLocalOffset(utcOffset);
  }

  /** A failing `init` leaves the slot empty, so reading still panics and a
      retried `init` can succeed. */
  method RetryAfterFailure(e: IndeterminateOffset, offset: Offset)
    returns (r1: Outcome<InitResult>, read1: Outcome<Offset>, r2: Outcome<InitResult>, read2: Outcome<Offset>)
    ensures r1 == Returned(Err(e)) && read1 == Panicked(InitErrorMessage)
    ensures r2 == Returned(Ok(())) && read2 == Returned(offset)
  {
    var utcOffset := new OffsetCell();
    r1 := Init(utcOffset, Err(e));
    read1 := CachedLocalOffset(utcOffset);
    r2 := Init(utcOffset, Ok(offset));
    read2 := CachedLocalOffset(utcOffset);
  }
}
