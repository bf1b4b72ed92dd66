# libuv-rs bookkeeping, modelled in Dafny

libuv-rs is a Rust binding over libuv. Almost every operation forwards to a `uv_*` C function.
What the binding itself does is bookkeeping around those calls. This project models that
bookkeeping and proves properties of it:

- the **payload store**: the additional data attached to each handle and request, keyed by
  its identity. Each entry is one of `SignalData`, `IdleData`, `CheckData`, `StreamData` or
  `WorkData`, and holds that kind's optional closures;
- the **watcher handles** (signal, idle, check): `new`, `start`, `stop` and the trampoline
  that libuv calls;
- the **stream capability**: three callback slots, their trampolines, `listen`, `read_start`,
  and the request-creating `write`, `write2` and `shutdown`;
- **work requests**: creation, the two trampolines, self-destruction after completion, and
  `queue_work`;
- **loop ownership**: which `Loop` values delete their native loop when dropped;
- `uvret`, the status-to-`Result` rule that every wrapper shares.

The state the binding touches is one object, `Runtime.World`. It holds:

- `blocks`: the blocks the binding allocated and has not released;
- `data`: the payload store;
- `loops`: the native loops from `uv_loop_new` that have not been deleted;
- `log`: every libuv call, with its arguments and the status it returned;
- `fired`: every closure call a trampoline made, with the arguments it passed.

libuv is an oracle: `World.Native` logs the call and returns a status that no contract
constrains. There is one exception. The doc-comments of `src/handles/check.rs` promise that
starting a check handle with a callback succeeds, and that stopping one always succeeds.
The oracle's contract carries those two promises, so `Check.Start` and `Check.Stop` can
state them. Allocation (`std::alloc::alloc`, `uv_loop_new`) is an oracle too:
it returns null or a block that was not live before.

A closure is an opaque token (`Payload.Closure`). The model records which closure a
trampoline calls and with which arguments, never what it does.

Handle and request values (`SignalHandle`, `WorkReq`, …) are plain pointer wrappers, as in
the source, and their operations are methods over the `World`. Each such method's `modifies`
clause names the fields it may change. Its `ensures` clauses then state the new payload
store, the call it made (with the callback flags it passed), and its result as a function of
libuv's status. The pure part of the payload store is in `Payload`: `GetData`, `Store`,
`Dispatch` and their contracts. Beside them is a semantics of one entry's history (`Op`,
`Replay`, `Fired`). The lifecycle invariants are proved as lemmas over that history:

- nothing is called after the entry is freed;
- an entry never changes variant;
- a replaced closure takes effect at the next dispatch and lasts until the next store;
- a trampoline only ever calls a closure that was handed to a start-like operation.

Some facts about the code that a caller may not expect. The model keeps each one as written:

- `run` passes `uv_run`'s status through `uvret` (src/loop.rs:104-106). So the non-zero
  "more callbacks are expected" answer documented at src/loop.rs:11-24 is discarded, and
  `EventLoop.Loop.Run` gives `Ok(())` for it.
- When `uv_loop_init` fails, `Loop::new` returns the error without deleting the native loop
  it obtained (src/loop.rs:48-63). `EventLoop.Loop.New` keeps that loop in `loops`.
- The buffer count is cast from `usize` to `c_uint` (src/handles/streams/stream.rs:210, 240
  and 256). `Crate.AsCUint` writes out that cast, and the write calls pass its result.
- The stream's own lookup dereferences before it tests for null (see Findings). The stream
  operations of the model use the kind-checked lookup instead (see Left out).

## Model

| member | source | states |
|---|---|---|
| Crate.UvRet | src/lib.rs:67-74 | `Err` exactly when the code is negative, and then the error is the conversion of that same code; `Ok(())` otherwise; a total function of the code |
| Crate.UvRetDiscardsValue | src/lib.rs:71-73 | every non-negative code, positive ones included, gives the same `Ok(())`: the value is discarded |
| Crate.AsCUint | src/handles/streams/stream.rs:210 | the `usize`-to-`c_uint` cast of the buffer count: below 2^32, differs from the count by a multiple of 2^32, and equals it when it fits |
| EventLoop.NativeMode | src/loop.rs:27-35 | `Default`, `Once` and `NoWait` map to `UV_RUN_DEFAULT`, `UV_RUN_ONCE` and `UV_RUN_NOWAIT` respectively, and each native mode comes from exactly one mode |
| EventLoop.NativeModeInjective | src/loop.rs:27-35 | two modes with the same native mode are the same mode |
| EventLoop.Loop.New | src/loop.rs:48-63 | null from `uv_loop_new` gives `ENOMEM` with no init call; a negative init status gives that error, and the native loop stays allocated; otherwise a fresh `Loop` on the new native loop with `shouldDrop` true |
| EventLoop.Loop.DefaultLoop | src/loop.rs:73-83 | null gives `ENOMEM`; otherwise a fresh `Loop` on the default loop with `shouldDrop` false |
| EventLoop.Loop.From | src/loop.rs:190-194 | a `Loop` made from a raw pointer never owns it: `shouldDrop` is false |
| EventLoop.Loop.Drop | src/loop.rs:196-205 | deletes the native loop (one `uv_loop_delete` call) only when the handle is non-null and `shouldDrop` holds; always leaves the handle null, so a second drop calls nothing |
| EventLoop.Loop.BlockSignal | src/loop.rs:90-92 | one configure call with the signal number; result is `uvret` of its status |
| EventLoop.Loop.Close | src/loop.rs:98-100 | one `uv_loop_close` call; result is `uvret` of its status |
| EventLoop.Loop.Run | src/loop.rs:104-106 | one `uv_run` call with the mapped native mode; result is `uvret` of its status |
| EventLoop.Loop.IsAlive | src/loop.rs:110-112 | true exactly when `uv_loop_alive` answers non-zero |
| EventLoop.Loop.Stop | src/loop.rs:117-119 | exactly one `uv_stop` call |
| EventLoop.Loop.Fork | src/loop.rs:185-187 | one `uv_loop_fork` call; result is `uvret` of its status |
| Payload.GetData | src/handles/streams/stream.rs:74-79 | the variant-checked lookup: the entry when it exists and has the asked variant; null (None) when it is missing or has another variant |
| Payload.Set | src/handles/signal.rs:87-91 | overwriting one slot keeps the entry's variant, every other slot and the stream's auxiliary data |
| Payload.Store | src/handles/signal.rs:86-91 | the start-time update: the slot holds the new closure (or None) when the handle's entry exists and has the slot's variant, and the store is unchanged otherwise; no other entry, no other slot and no variant changes |
| Payload.Dispatch | src/handles/signal.rs:11-22 | a trampoline calls a closure only when the entry exists, has the slot's variant and holds Some, and then it calls exactly the stored one |
| Payload.StoreThenDispatch | src/handles/streams/stream.rs:179-183 | a stored closure is what the next dispatch of that slot calls; nothing is called when the entry is missing or has another variant |
| Payload.StreamGetDataAsWritten | src/handles/streams/stream.rs:74-79 | the stream lookup as written: a fault exactly when the handle has no entry; null when the entry has another variant |
| Payload.StreamGetDataAsWrittenFaults | src/handles/streams/stream.rs:74-79 | for a handle with no entry, the lookup as written faults while the kind-checked lookup gives null |
| Payload.ReplayTouchesOnly | src/handles/signal.rs:86-91 | any history of one handle leaves every other handle's entry as it was |
| Payload.ReleasedNeverFires | src/handles/signal.rs:11-22 | without an entry, no operation creates one and no trampoline calls anything |
| Payload.NoUseAfterRelease | src/handles/streams/stream.rs:81-83 | after `free_data`, whatever follows calls no closure and no entry comes back |
| Payload.VariantNeverChanges | src/handles/signal.rs:86-91 | an entry that survives any history still has the variant it started with: there is no cross-variant access |
| Payload.SlotPersists | src/handles/signal.rs:119-121 | stops, firings and stores into other slots leave a slot's closure unchanged |
| Payload.LatestStoreIsDispatched | src/handles/signal.rs:76-94 | after a store into a slot, until the next store into it or the entry is freed, every dispatch of that slot calls exactly the stored closure, or nothing when None was stored |
| Payload.FreshEntryFiresOnlyGiven | src/idle.rs:10-21 | from a freshly attached entry, every closure a trampoline calls is one that a start-like operation stored |
| Signal.Callback | src/handles/signal.rs:11-22 | calls the stored closure with the received signal number exactly when the entry exists, is `SignalData` and holds Some; otherwise calls nothing |
| Signal.New | src/handles/signal.rs:57-73 | allocation failure gives `ENOMEM` with no init call and no entry; a failed init releases the block, returns that error and attaches nothing; success attaches `SignalData` with no closure to a fresh block |
| Signal.Start | src/handles/signal.rs:76-94 | stores the given closure or None when the entry is `SignalData`, even when libuv then fails; the trampoline is registered exactly when a closure is given; result is `uvret` of the status |
| Signal.StartOneshot | src/handles/signal.rs:98-116 | changes the payload exactly as `start` does; only the native call differs |
| Signal.Stop | src/handles/signal.rs:119-121 | one native call; the stored closure is unchanged |
| Idle.Callback | src/idle.rs:10-21 | calls the stored closure exactly when the entry exists, is `IdleData` and holds Some |
| Idle.New | src/idle.rs:37-53 | `ENOMEM` on allocation failure; a failed init releases the block and attaches nothing; success attaches `IdleData` with no closure |
| Idle.Start | src/idle.rs:56-70 | stores the closure or None when the entry is `IdleData`; the trampoline is registered exactly when a closure is given; result is `uvret` of the status |
| Idle.Stop | src/idle.rs:73-75 | one native call; the stored closure is unchanged |
| Check.TryFrom | src/handles/check.rs:101-112 | succeeds, on the same pointer, exactly when the handle type is `CHECK`; otherwise a `ConversionError` carrying the actual and the expected type |
| Check.Callback | src/handles/check.rs:16-25 | calls the stored callback only when the entry exists, is `CheckData` and holds one |
| Check.New | src/handles/check.rs:35-51 | `ENOMEM` on allocation failure; a failed init releases the block and returns the error; success attaches a default `CheckData` |
| Check.Start | src/handles/check.rs:53-69 | stores the callback in the `CheckData` entry when there is one; registers the trampoline exactly when a callback is given; succeeds when one is given; otherwise the result is `uvret` of libuv's status |
| Check.Stop | src/handles/check.rs:71-74 | always succeeds and leaves the stored callback unchanged |
| Work.CompletionStatus | src/requests/work.rs:32-36 | a negative status becomes `Err` of that code; a non-negative one becomes `Ok` of the same value |
| Work.CompletionStatusAgreesWithUvRet | src/requests/work.rs:32-36 | the completion status fails exactly when `uvret` would, with the same error |
| Work.WorkCallback | src/requests/work.rs:16-25 | calls `work_cb` only when the entry exists, is `WorkData` and holds one |
| Work.AfterWorkCallback | src/requests/work.rs:27-45 | calls `after_work_cb` (when there is a `WorkData` entry holding one) with the mapped status; then always destroys the request, payload and block, even with no entry, so a request completes at most once |
| Work.New | src/requests/work.rs:55-76 | `ENOMEM` on allocation failure with no entry; otherwise a fresh block carrying `WorkData` with both given callbacks |
| Work.Destroy | src/requests/work.rs:83-88 | the payload entry is freed, then the block is released (releasing first is not allowed by `World.Dealloc`) |
| Work.QueueWork | src/requests/work.rs:128-144 | creation errors are passed on with no submission; the worker trampoline is registered exactly when a work callback is given; a negative submission status destroys the request and returns `Err`; otherwise the live request with its `WorkData` |
| Stream.InitializeData | src/handles/streams/stream.rs:64-72 | attaches `StreamData` with all three slots None and the given auxiliary data unchanged |
| Stream.FreeData | src/handles/streams/stream.rs:81-83 | the entry is gone, and every later lookup gives null |
| Stream.AllocCallback | src/handles/streams/stream.rs:17-30 | calls the alloc closure, with the suggested size and buffer unchanged, exactly when the stream entry exists and holds one |
| Stream.ConnectionCallback | src/handles/streams/stream.rs:33-42 | calls the connection closure with the status unchanged exactly when the stream entry exists and holds one |
| Stream.ReadCallback | src/handles/streams/stream.rs:45-54 | calls the read closure with the byte count and buffer unchanged exactly when the stream entry exists and holds one |
| Stream.Shutdown | src/handles/streams/stream.rs:114-130 | creation errors are passed on with no submission; a negative status destroys the new request and returns `Err`; otherwise the live request |
| Stream.Listen | src/handles/streams/stream.rs:132-148 | stores exactly the given closure or None as `connection_cb` when the stream entry exists; the trampoline is registered exactly when a closure is given; result is `uvret` of the status |
| Stream.Accept | src/handles/streams/stream.rs:159-161 | one native call; no stored closure changes; result is `uvret` of the status |
| Stream.ReadStart | src/handles/streams/stream.rs:165-186 | replaces `alloc_cb` and `read_cb` together and keeps `connection_cb`; each native callback is registered exactly when its closure is Some |
| Stream.ReadStop | src/handles/streams/stream.rs:191-193 | one native call; no stored closure changes; result is `uvret` of the status |
| Stream.Write | src/handles/streams/stream.rs:199-218 | creation errors are passed on; `uv_write` receives the buffer count cast to `c_uint`; a negative status destroys the new request and returns `Err`; otherwise the live request |
| Stream.Write2 | src/handles/streams/stream.rs:228-249 | as `write`, with the handle to send passed to `uv_write2` |
| Stream.TryWriteResult | src/handles/streams/stream.rs:260 | `Ok(n)` with `n` the native return when it is non-negative; `Err` of that code otherwise |
| Stream.TryWrite | src/handles/streams/stream.rs:254-261 | one native call, with the buffer count cast to `c_uint`, whose return is mapped by `TryWriteResult`; no request is created and no closure changes |
| Stream.SetBlocking | src/handles/streams/stream.rs:288-292 | passes 1 or 0 for the flag; no stored closure changes; result is `uvret` of the status |

## Left out

- Everything inside libuv: polling, what `run` does, timers, signal delivery and its platform
  caveats, what `accept` and `listen` do, write ordering, the order of idle and check
  callbacks. Each `uv_*` call is an oracle returning a status.
- The check-handle promises (start with a callback succeeds, stop always succeeds) come from
  the doc-comments of src/handles/check.rs:53-54 and 71. The model takes them as the
  oracle's contract. It proves nothing about libuv.
- Check.Start: does not promise that a start without a callback fails. The doc-comment's
  "except when cb is ()" does not say what happens then. libuv answers 0 for a handle that is
  already active before it looks at the callback. So that case is left to the oracle.
- `Loop::now`, `update_time`, `backend_fd`, `backend_timeout`, `WorkReq::loop`,
  `is_readable`, `is_writable` and `get_write_queue_size` only return a native value. The
  binding adds no logic to them.
- Worker-pool concurrency of `work_cb`. Only the sequential order is modelled: request
  created, work callback, completion, self-destroy.
- Raw memory plumbing: allocation layouts, the buffer conversion in `try_write`
  (`Vec::from_raw_parts`), `bufs_ptr`, and the pointer casts. Buffers reach libuv only as a
  count.
- `handle.rs`, `req.rs`, `addl_handle_data.rs`, `req_data.rs`, the `callbacks!` and
  `use_c_callback!` macros, and the `Error::from` code table are not part of this model:
  - the generic lookup, attach and free are map operations on the payload store;
  - a `callbacks!` value is an optional closure, and `use_c_callback!` passes the trampoline
    exactly when the closure is present;
  - an error keeps the code it was made from;
  - `UV_ENOMEM` has its Unix value.
- Closing a handle (in `handle.rs`, which is not part of this model) frees its payload and
  block later. So the model never releases a handle's block.
- Stream.Write: the completion closure `cb` is stored by the write-request module, which is
  not part of this model. It is not recorded. `WriteReq::new` is modelled as allocating a
  block (`ENOMEM` on null), and its `destroy` as freeing the payload and then the block, the
  same shape as `WorkReq`'s.
- Stream.Write2: same as `Stream.Write`.
- Stream.Shutdown: same as `Stream.Write`, for the shutdown-request module.
- The write and shutdown completion trampolines belong to those request modules and are not
  modelled.
- A closure calling back into the binding from inside a trampoline (re-entrancy) is not
  modelled. Closure bodies are opaque.
- Integer widths: statuses, signal numbers and byte counts are unbounded integers. The
  narrowing `usize`-to-`c_uint` casts of the buffer count, in `write`, `write2` and
  `try_write`, are written out as `Crate.AsCUint`. The other casts on these paths keep the
  value: a non-negative `i32` completion status becomes `u32`, and `try_write`'s `c_int`
  becomes `i32`.
- Stream.AllocCallback: when the stream has no entry, the source's lookup
  (src/handles/streams/stream.rs:74-79) dereferences a null pointer. This member follows the
  kind-checked lookup `Payload.GetData` instead, and calls nothing. The fault is modelled
  only by `Payload.StreamGetDataAsWritten` (see Findings).
- Stream.ConnectionCallback: the same as `Stream.AllocCallback` for a stream with no entry.
- Stream.ReadCallback: the same as `Stream.AllocCallback` for a stream with no entry.
- Stream.Listen: the same as `Stream.AllocCallback` for a stream with no entry. The store
  changes nothing instead of faulting.
- Stream.ReadStart: the same as `Stream.Listen` for a stream with no entry.

## Findings

| source | as written | input that shows it | evidently intended | confidence | as-written member | corrected member |
|---|---|---|---|---|---|---|
| src/handles/streams/stream.rs:74-79 | the stream lookup dereferences the pointer from the generic payload lookup before any null test. Only a wrong variant gives null; a missing entry is dereferenced | a stream handle with no entry (never initialised, or after `free_data`) reaching `uv_read_cb`, `listen` or `read_start` | test the pointer for null first and return null, as the signal, idle and check trampolines do | not executed; medium: it relies on the generic lookup returning null for a missing entry, which the null tests in the other trampolines assume | Payload.StreamGetDataAsWritten, Payload.StreamGetDataAsWrittenFaults | Payload.GetData |
