# dmds: the deferred value handle and the record and storage contracts

dmds is a multi-dimensional database: records carry a fixed number of
dimension values, live in chunks of an N-dimensional grid, and are read
through a pluggable asynchronous storage backend. A range scan is meant to
yield one deferred value handle (`Lazy`) per matching record, which the
caller resolves on demand; the scan streams themselves are not written yet
(see "## Left out"), and the handle is modelled on its own.

This project models two pieces of the crate:

- `iter.dfy`, module `Iter` (from `src/world/iter.rs`): the handle `Lazy`
  as a class with its write-once value slot, its one-shot reader slot, its
  read type (`Mem` chunk position or `Io` payload length) and its staleness
  pair (a link to the live generation counter and the snapshot `expected`);
  `GetOrInit` is proved against the specification function `Resolve`. The
  byte-reading future `FromBytes` is a class whose `Poll` installs a buffer
  of `len` zero bytes, reads into it, checks the byte count and decodes; it
  is proved against `ReadExact`. Module `IterProperties` states the
  handle's contract about `Resolve` and about `RunCalls`, a sequence of
  calls on one handle: idempotence, no effect once resolved, the generation
  check before any decode, consumption of the reader at most once, the
  exact-length read check and the state each error leaves behind. Every
  effect of a call (world lookup, staleness check, read, decode) is recorded as
  an `Event` in a ghost trace.
- `dmds.dfy`, module `Dmds` (from `src/lib.rs`): the `Data` implementation
  for `[u64; DIMS]` (`Dim`, `DecodeArray`, `EncodeArray`, `ARRAY_VERSION`)
  with its round trip, the storage handle `IoHandle` with the provided
  `hint_is_valid` and the forwarding implementation for pointers (`Deref`),
  and the crate's error enum.

The world lookup `World::get`, the reader behind an `Io` handle and the
record type's `decode` are outside the model; they appear as function-valued
fields (`World.get`, `Reader.pollRead`, `Decoder.decode`) that every
statement holds for. The weak link to the generation counter is the class
`GenerationLink` whose `current` is `None` once the world is gone.

The code and the handle's documented intent differ in one place. The error
variant `ValueTaken` ("requiring value has been taken") suggests that a
handle whose reader was already taken should fail with it. The code instead
calls `unwrap` on the empty reader slot (`src/world/iter.rs:112`), which
panics, and never constructs `ValueTaken`. The model follows the code: the
panic is the precondition `CanResolve`, `RunCalls` stops at it, and
`RetryAfterShortReadPanics` shows a reachable case (a retry after a short
read) while `NeverValueTaken` shows the variant never occurs. The intended
behaviour is `ResolveIntended`, which agrees with `Resolve` wherever the
code does not panic (see "## Findings").

## Model

| member | source | states |
|---|---|---|
| `Dmds.Dim` | src/lib.rs:57-60 | the projection on dimension `i` of an array is its `i`-th cell, defined only for `i` below the dimension count |
| `Dmds.DecodeArray` | src/lib.rs:62-67 | decoding always succeeds with an array of exactly `n` cells whose projections are the supplied dimension values; fewer or more values are excluded, as `copy_from_slice` panics on them |
| `Dmds.EncodeArray` | src/lib.rs:69-72 | encoding an array writes no byte to the output buffer and always succeeds |
| `Dmds.DecodeArrayIgnoresVersionAndPayload` | src/lib.rs:62-67 | the decoded array depends neither on the version nor on the payload: for any two versions and payloads it is the supplied dims |
| `Dmds.ArrayRoundTrip` | src/lib.rs:51-72 | decoding, at `ARRAY_VERSION`, the output of `encode(x)` with the dims `[x.dim(0), ..., x.dim(n-1)]` gives back `x` |
| `Dmds.HintIsValid` | src/lib.rs:87-109 | `hint_is_valid` of any handle is `true` when the implementation behind its pointers keeps the provided method, and otherwise that implementation's own answer for the position |
| `Dmds.ReadChunk` | src/lib.rs:93-117 | `read_chunk` of any handle is the `read_chunk` of the implementation behind its pointers, for every position |
| `Dmds.DefaultHintIsValid` | src/lib.rs:86-90 | the provided `hint_is_valid` answers `true` for every position |
| `Dmds.Target` | src/lib.rs:99-104 | every chain of pointers dereferences to an implementation of its own |
| `Dmds.DerefForwards` | src/lib.rs:106-117 | through any number of pointers, `hint_is_valid` and `read_chunk` give for every position what the target implementation gives |
| `Dmds.DefaultHintHoldsEverywhere` | src/lib.rs:86-109 | a handle whose implementation keeps the provided hint reports every position valid, also behind pointers |
| `Iter.Zeros` | src/world/iter.rs:164-165 | the buffer installed before the read holds exactly `len` bytes, all zero |
| `Iter.ReadExact` | src/world/iter.rs:145-162 | the reader is polled first, with the given buffer; a reader error is passed on unchanged and a count other than `len` is `UnexpectedEof(count, len)`, both without decoding; a full read hands the filled buffer and `dims` to the decoder and empties the buffer slot, which happens exactly on a full read |
| `Iter.FromBytes.Poll` | src/world/iter.rs:142-169 | polling a future with no buffer installs `len` zero bytes and then reads into them; result, buffer slot and effects are those of `ReadExact` on that buffer |
| `Iter.Value.Get` | src/world/iter.rs:71-75 | the record a filled slot gives access to is the borrowed one of a `Ref` or the owned one of a `Direct` |
| `Iter.CanResolve` | src/world/iter.rs:78-112 | the states in which `get_or_init` does not panic; a resolved handle and a stale `Io` handle never panic, nor does a handle with its reader and, on the `Mem` path, at least one dimension |
| `Iter.Resolve` | src/world/iter.rs:70-128 | one `get_or_init` call: only the value and reader slots change; a filled value slot never changes; after the call the slot is filled exactly when the call succeeded, holding the returned record; the reader slot is never refilled |
| `Iter.ResolveIntended` | src/world/iter.rs:93-126 | the intended `get_or_init`: only the two slots change and the value slot is filled exactly on success; a current `Io` handle without its reader fails with `ValueTaken` |
| `Iter.GenerationLink.constructor` | src/world/iter.rs:51-53 | the weak link to the live counter reads the given value, `None` standing for a world that is gone |
| `Iter.Lazy.GetOrInit` | src/world/iter.rs:70-128 | result, new value slot, new reader slot and effects are those of `Resolve` on the handle's state with the counter's current value; the handle's other fields and the counter are unchanged |
| `Iter.Lazy.Dims` | src/world/iter.rs:62-66 | the handle's dims are the ones `Resolve` looks up by and decodes with |
| `IterProperties.ResolvedReturnsStored` | src/world/iter.rs:71-76 | a resolved handle returns the stored record, with no lookup, no staleness check and no read, and its state unchanged |
| `IterProperties.MemMissing` | src/world/iter.rs:79-85 | `Mem` path: when the world has no record at `(chunk, dims[0])` the result is `ValueNotFound`, the lookup is the only effect and the value slot stays empty |
| `IterProperties.MemFound` | src/world/iter.rs:78-91 | `Mem` path: the slot now borrows the looked-up record and that record is returned; no staleness check happens and the reader slot is untouched |
| `IterProperties.StaleFails` | src/world/iter.rs:94-107 | `Io` path: a counter that is gone or differs from `expected` fails with `IterUpdated{expected, current}`; nothing is read or decoded and both slots are untouched |
| `IterProperties.FreshReadTakesReader` | src/world/iter.rs:109-156 | `Io` path with a matching counter: the reader is taken out of its slot and polled with `len` zero bytes after the staleness check; a reader error or a short or long count fails as `Io` without decoding and leaves the value slot empty |
| `IterProperties.FullReadDecodes` | src/world/iter.rs:109-162 | on a full read the filled buffer and `dims` go to the decoder; a record is stored as `Direct` and returned, a decoder error becomes `Io` and leaves the value slot empty |
| `IterProperties.DecodeOnlyAfterGenerationCheck` | src/world/iter.rs:93-118 | a decode happens only on the `Io` path of an unresolved handle whose counter matched, after the staleness check, and with the handle's dims |
| `IterProperties.StepPollsAtMostOnce` | src/world/iter.rs:109-118 | one call reads at most once, only by emptying a full reader slot, and never refills the reader slot |
| `IterProperties.RunCalls` | src/world/iter.rs:70-128 | a sequence of calls returns one result per call unless it ends in a panic |
| `IterProperties.OnceResolvedAlwaysSame` | src/world/iter.rs:71-76 | once resolved, every later call returns the stored record whatever the counter reads, with no effect and no panic |
| `IterProperties.FirstSuccessIsFinal` | src/world/iter.rs:70-128 | after a first successful call all later calls return the very same record |
| `IterProperties.ReaderPolledAtMostOnce` | src/world/iter.rs:109-112 | over any sequence of calls the reader is read at most once, and never when the slot starts empty |
| `IterProperties.NeverValueTaken` | src/world/iter.rs:26-38 | no call in any sequence reports `ValueTaken` |
| `IterProperties.RetryAfterShortReadPanics` | src/world/iter.rs:109-153 | as written: for every unresolved `Io` handle whose read comes up short, the call fails with `UnexpectedEof(count, len)` and a retry with a matching counter panics at the unwrap |
| `IterProperties.RetryAfterShortReadIsValueTaken` | src/world/iter.rs:26-38 | intended: for every such handle the retry fails with `ValueTaken`, leaving both slots empty |
| `IterProperties.ResolveIntendedAgrees` | src/world/iter.rs:70-128 | wherever the code as written does not panic, the intended `get_or_init` is exactly the code's |
| `IterProperties.MutationAfterScanStartIsReported` | src/world/iter.rs:94-107 | for any unresolved `Io` handle, any snapshot and any later counter reading other than the snapshot (including a world that is gone), the call fails with `IterUpdated{expected, current}` |
| `IterProperties.ResolvedBeforeMutationIsUnaffected` | src/world/iter.rs:71-91 | for any handle whose first call succeeds, a second call after any change of the counter returns the same record |

## Findings

| source | as written | input that shows it | evidently intended | confidence | as-written member | corrected member |
|---|---|---|---|---|---|---|
| src/world/iter.rs:112 | `take().unwrap()` on the reader slot panics when the slot is empty; `ValueTaken` is never constructed | an `Io` handle whose first read reported fewer than `len` bytes, resolved again while the counter still matches the snapshot | the retry fails with `ValueTaken` ("requiring value has been taken", src/world/iter.rs:29-30) | medium; not executed | `IterProperties.RetryAfterShortReadPanics` | `IterProperties.RetryAfterShortReadIsValueTaken` |

## Left out

- `ChunkIter::poll_next` and `Iter::poll_next` (src/world/iter.rs:177-204): both are `todo!()` and have no behaviour.
- `World`, `World::get`, `Ref`, the chunk cache, the range planner and the `select`, `range` and `mem_io_handle` modules: src/world/mod.rs, src/world/select.rs, src/range.rs and src/mem_io_handle.rs are not part of this model; `World::get` is an arbitrary partial function `(chunk, key) -> Option<record>`.
- `Data::decode` and `Data::encode` of user record types: foreign codecs; `FromBytes` calls an arbitrary `Decoder` with the two arguments it passes at src/world/iter.rs:162 (the trait declares three at src/lib.rs:41; no version is invented here).
- Asynchronous machinery (`Future`, `Pin`, `Context`, `Poll::Pending`, `ready!`): a read is one step that returns a count and the filled buffer, or an error; `get_or_init` is a plain method.
- Atomics, memory orderings, `Weak::upgrade`, `Mutex` poisoning and `OnceLock` races: single-threaded; the counter link is an `Option<nat>`, the reader slot an `Option` field, the value slot a field written only while empty. The `usize` width of the counter is not modelled, since only equality is used.
- Iter.Lazy.GetOrInit: panics are preconditions (`CanResolve`): indexing `dims[0]` of a zero-dimensional handle and unwrapping an empty reader slot; a sequence of calls in `RunCalls` ends at such a panic.
- Dmds.Dim and Dmds.DecodeArray: their panics are preconditions too, an index below the dimension count for `dim` and exactly `n` supplied dimension values for `copy_from_slice` in `decode`; `World::new` checks the dimension count (src/macros.rs:21-24), which is why the engine's calls meet the latter.
- The contract of `AsyncRead::poll_read` (a count no larger than the buffer) is not assumed: any count is allowed, and only exactly `len` leads to a decode.
- The `_world` field of `FromBytes`: unused by the code.
- `ValueMoved` and `ValueOutOfRange`: declared in the crate's error enum, produced only in modules not part of this model.
- The `Display` messages of both error enums (`thiserror`); `UnexpectedEof` keeps the two byte counts its message reports.
- `src/macros.rs`: syntactic sugar over `World::new`, no logic.
