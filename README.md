# time-local: the initialise-once gate, in Dafny

The `time_local` crate caches the local UTC offset for programs that need it
after they have started threads. Asking the operating system for the offset
is only reliable while the process has a single thread. So the crate keeps a
process-wide write-once slot, `UTC_OFFSET`, with two operations:

- `init` asks the platform for the current local offset. A failing query is
  returned as the recoverable error `IndeterminateOffset`, and the slot is not
  touched. A successful query fills the slot. If the slot is already full,
  `init` panics.
- `cached_local_offset` returns the stored offset. It panics if the slot is
  empty.

Both panics carry the same fixed message: "call `time_local::init()` once
during application initialization before spawning threads". A third
operation, `to_local`, converts a date-time by making its own fresh platform
query. It never uses the slot.

The model is sequential and has three files:

- `wrappers.dfy` defines `Option`, `Result` and `Outcome`. `Outcome` is either
  `Returned(value)` or `Panicked(message)`, so a panic is a separate channel
  from a returned `Err`.
- `time_local.dfy` models src/lib.rs:
  - The static `UTC_OFFSET` becomes the class `OffsetCell`, whose one field is
    `slot: Option<Offset>`. Its `Get` and `Set` methods are the two `OnceLock`
    operations the crate uses.
  - `Init` and `CachedLocalOffset` are methods on that cell. Each one is proved
    equal to a specification function on the slot's value: `InitStep` and
    `ReadStep`.
  - `ToLocal` is a function that reads no state.
  - `Offset` and `OffsetDateTime` are abstract types.
  - Each platform query becomes a parameter that holds the query's result.
  - `OffsetDateTime::to_offset` becomes a function parameter.
- `sessions.dfy` runs any sequence of calls on one slot, one call after
  another. A panic ends the run. Lemmas about these runs state what the gate
  promises over whole programs:
  - the slot is write-once;
  - every read sees the stored offset;
  - `init` succeeds at most once;
  - a read before a successful `init` panics;
  - two successful queries passed to `init` always lead to a panic;
  - `to_local` calls change nothing in the gate.

  Methods replay the crate's tests on the `OffsetCell` methods.

The crate follows one policy: explicit `init`, with a panic on every misuse. A
failed query is not cached, so a later `init` may still succeed. Only
successful offsets are ever stored.

Two places disagree with the code. In both, the model follows the code:
- The comment at examples/main.rs:7-10 says that `to_local` uses the cached
  value. The code does not: src/lib.rs:29 calls `UtcOffset::local_offset_at(self)`.
- The `expect` message at examples/main.rs:10 assumes the same.

`ToLocal` and `Sessions.ToLocalIgnoresCachedOffset` state what the code does:
with an offset stored and a failing fresh query, `to_local` returns `Err`.

## Model

| member | source | states |
|---|---|---|
| TimeLocal.InitError | src/lib.rs:42-46 | The misuse path never returns a value of any type and always carries the fixed message. |
| TimeLocal.OffsetCell.constructor | src/lib.rs:14 | The process starts with the slot empty. |
| TimeLocal.OffsetCell.Get | src/lib.rs:18 | Reading the slot yields exactly what it holds and changes nothing. |
| TimeLocal.OffsetCell.Set | src/lib.rs:36-38 | Setting an empty slot stores the value and reports success. Setting an occupied slot rejects the value and keeps the old one. |
| TimeLocal.InitStep | src/lib.rs:34-40 | A failing query returns its error on an empty or an occupied slot and leaves the slot unchanged. A successful query on an empty slot stores exactly that offset and returns Ok(()). On an occupied slot it panics with the fixed message and keeps the first offset. The slot is never cleared or overwritten, and Ok(()) comes back exactly when the call fills the slot. |
| TimeLocal.ReadStep | src/lib.rs:17-19 | Reading panics with the fixed message exactly when the slot is empty and never yields a value then. Otherwise it yields the stored offset. |
| TimeLocal.Init | src/lib.rs:34-40 | The method's new slot and outcome are those of InitStep on the old slot, spelled out for the failing query, the empty slot and the occupied slot. |
| TimeLocal.CachedLocalOffset | src/lib.rs:17-19 | The method changes nothing. It panics with the fixed message if and only if the slot is empty, and otherwise returns the stored offset. |
| TimeLocal.ToLocal | src/lib.rs:28-30 | The conversion fails exactly when its own fresh query fails, with that query's error. Otherwise it is the argument shifted to the freshly queried offset. It reads no slot. |
| Sessions.RunSlotGrows | src/lib.rs:36-38 | In any sequence of calls, once the slot holds an offset it keeps that same offset to the end. It moves only from empty to occupied. |
| Sessions.RunReadsSeeStoredOffset | src/lib.rs:14-19 | Every read that returns in a run yields the offset the slot holds at the end of the run. |
| Sessions.RunReadsAgree | src/lib.rs:17-19 | Any two reads that return in the same run yield the same offset. |
| Sessions.RunInitSucceedsOnce | src/lib.rs:34-40 | In any run, init returns Ok(()) exactly once when the run fills an empty slot, and never otherwise. |
| Sessions.RunReadBeforeInitPanics | src/lib.rs:17-19 | Suppose the slot is empty and no earlier init had a successful query. Then a read makes the run panic with the fixed message, the slot stays empty and no read yields a value. |
| Sessions.RunReinitPanics | src/lib.rs:36-38 | On an occupied slot, a later init whose query succeeds panics with the fixed message. The stored offset is kept. |
| Sessions.RunDoubleInitPanics | tests/double_init.rs:3-11 | A run that contains two init calls with successful queries always ends in a panic with the fixed message. |
| Sessions.RunIgnoresToLocal | src/lib.rs:28-30 | Removing every to_local call from a run leaves unchanged the final slot, the panic and the results of all other calls. |
| Sessions.ToLocalIgnoresCachedOffset | src/lib.rs:29 | With an offset stored, to_local still answers from its own fresh query: a failing query gives Err, and a successful one is used instead of the stored offset. The slot is unchanged. |
| Sessions.FailedInitChangesNothing | src/lib.rs:35 | An init whose query fails returns the error and changes nothing. The rest of the run goes on as if the call had not been made, so a later init may still succeed. |
| Sessions.NoInit | tests/no_init.rs:3-9 | Reading the cached offset without init panics with the fixed message. |
| Sessions.DoubleInit | tests/double_init.rs:3-11 | The first init succeeds. The second, with a successful query, panics with the fixed message, and the first offset stays stored. |
| Sessions.CachedAfterInit | tests/main.rs:5-13 | After a successful init, two reads both return the queried offset. |
| Sessions.RetryAfterFailure | src/lib.rs:34-40 | After a failed init, a read still panics. A retried init with a successful query then succeeds, and a read returns its offset. |

## Left out

- Concurrency. The model leaves out the thread safety of `OnceLock`, the atomicity of its one write and visibility across threads (src/lib.rs:1, src/lib.rs:14). That guarantee belongs to Rust's standard library. The slot is modelled as one sequential cell, so "the query runs exactly once among N racing threads" is not stated.
- The platform queries `UtcOffset::current_local_offset` and `UtcOffset::local_offset_at` (src/lib.rs:29, src/lib.rs:35). They read the process environment through the `time` crate, which is not part of this model. Their results are parameters.
- `OffsetDateTime::to_offset`, `from_unix_timestamp` and the `offset()` round trip checked at tests/main.rs:11-12 and src/lib.rs:83-84. This is date arithmetic inside the `time` crate, which is not part of this model. `to_offset` is an uninterpreted function parameter of `ToLocal`.
- The soundness toggle `UnsoundGuard` (tests/support/mod.rs:6-24, src/lib.rs:52-75). It is test scaffolding built on a mutex and unsafe global state. The core does not depend on it.
- examples/main.rs. It spawns a thread and prints a date-time. It also ignores the `Result` of `init`.
- The `unwrap()` calls in the tests. They would panic with a different message if the platform query failed. The test scenarios pass successful queries only.
- Stack unwinding after a panic. A panic ends a session, and no later call runs.
- The unit test `it_works` at src/lib.rs:77-85 repeats tests/main.rs. Its `init`-then-read part is covered by `CachedAfterInit`.
