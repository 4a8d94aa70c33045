# Allocation facade of the WebAssembly micro runtime

This project models the memory allocation facade of the runtime
(`core/iwasm/common/wasm_memory.c`). The facade is a process-wide state
machine with four modes: unknown, pool, allocator (host callbacks) and
system allocator. It has one initialisation routine per mode, a destroy
that resets the mode, a pool-size query, a statistics query, and
`malloc`/`realloc`/`free` calls. Each call dispatches to exactly one backend
according to the current mode.

The model has three modules.

- `MemoryModel` (memory_model.dfy) models the statics on values. `State`
  has one field per static: the mode, the pool handle, the pool size, the
  user data and the three function pointers. Each C routine is a function
  from the state before the call to an `Outcome`: the state after the call,
  the value returned, and the `Event`s the call produced. An event is a
  request forwarded to a backend (`PoolMalloc`, `CbFree`, `OsRealloc`, ...)
  or a diagnostic sent to the log. The contracts of these functions state
  the facade's behaviour. `Valid` is the invariant the facade keeps: pool
  mode has a non-NULL pool, and allocator mode has distinct, non-NULL malloc
  and free functions. `WellFormedCall` says what no backend ever receives:
  a zero-size malloc, a free of NULL, a NULL pool handle or a NULL callback.
- `MemoryRuns` (memory_runs.dfy) models whole sequences of public calls
  (`Run`) and proves properties that span several calls.
- `WasmMemory` (wasm_memory.dfy) has class `Runtime`. Its fields are the
  statics, and a ghost `trace` records every event. Each method updates the
  fields as the C code does, step by step. Each method is proved to do what
  the `MemoryModel` function of the same name does (`Follows`).

Pointers, pool handles and function pointers are opaque natural numbers,
and 0 is NULL. Replies from the foreign backends are inputs to the
operations:

- `created` is the handle that pool creation returns, or NULL.
- `reply` is the pointer a backend malloc or realloc returns.
- `status` is the result of pool destroy.
- The boolean `reply` of `GetMemAllocInfo` is the pool's introspection
  result.

Each reply is used only when the facade actually calls that backend. Only
the `WASM_MEM_ALLOC_WITH_USER_DATA` build is modelled. The other build is
the same minus the user data. The leak-verification build flag
(`BH_ENABLE_GC_VERIFY`) is the `gcVerify` constant of the runtime object.

The facade enforces less than a reader might expect, and the model follows
the code:

- Re-initialisation is not prevented. A second successful init switches the
  mode directly. For example, pool followed by system allocator is allowed,
  and the old pool is never destroyed. `MemoryInit` states that
  initialisation never issues a pool destroy.
- The pool handle, pool size and callback set are never cleared. Destroy
  changes only the mode. `RunAfterDestroy` proves that this stale state
  still cannot be observed.
- A failed init leaves the state as it was. That state is not necessarily
  the unknown mode.
- On the leak-exit path of destroy, the process exits before the mode is
  reset. The model therefore returns `LeakExit` with the statics unchanged.

## Model

| member | source | states |
|---|---|---|
| MemoryModel.InitWithPool | core/iwasm/common/wasm_memory.c:35-48 | succeeds iff pool creation yields a non-NULL handle; on success the mode is pool, the handle is stored, the pool-size query answers exactly `bytes` and nothing else changes; on failure the state is unchanged and the events are exactly the creation request and the error; the one backend request is the creation over (`mem`, `bytes`); the invariant holds afterwards |
| MemoryModel.InitWithAllocator | core/iwasm/common/wasm_memory.c:51-66 | succeeds iff malloc and free are non-NULL and differ, whatever realloc is; on success the mode is allocator and user data and all three pointers are overwritten; on failure the state is unchanged and only an error is logged; no backend is called |
| MemoryModel.MemoryInit | core/iwasm/common/wasm_memory.c:85-114 | pool and allocator selectors succeed exactly under their conditions; on success the new state is the old one with exactly the fields that init assigns overwritten (mode, handle and size; or mode, user data and the three functions); the system selector always succeeds, sets only the mode and calls nothing; any other selector fails with no state change and no event; every failure leaves the state unchanged; only the pool selector reaches a backend (creation), and no init ever destroys the previous pool; success establishes the invariant |
| MemoryModel.MemoryDestroy | core/iwasm/common/wasm_memory.c:116-131 | exits (LeakExit) iff leak verification is built in, the mode is pool and destroy reports nonzero; otherwise only the mode changes, to unknown, and the pool-size query then answers UINT32_MAX although the size is not cleared; the pool is destroyed exactly once and only in pool mode, through the stored handle |
| WasmMemory.Runtime.PoolSize | core/iwasm/common/wasm_memory.c:133-140 | the stored pool size in pool mode, UINT32_MAX in every other mode; changes nothing; its result is `MemoryModel.MemoryPoolSize` of the statics, the value-level twin through which the init and destroy contracts state the pool size |
| MemoryModel.MallocInternal | core/iwasm/common/wasm_memory.c:142-163 | in unknown mode NULL, a warning and no backend request; otherwise exactly one malloc request of `size` to the backend the mode selects, through its stored handle or function and user data, whose reply is returned verbatim; the state is unchanged |
| MemoryModel.Malloc | core/iwasm/common/wasm_memory.c:218-228 | a zero size is forwarded as one byte, any other size unchanged; a size-zero warning is logged iff the size is zero; NULL without any backend request in unknown mode, the backend's reply otherwise; under the invariant no request is malformed (none has size zero) |
| MemoryModel.Realloc | core/iwasm/common/wasm_memory.c:165-189 | NULL and no backend request in unknown mode, and in allocator mode without a realloc function; otherwise exactly one realloc request with pointer and size unchanged (no zero bump, no NULL special case) to the selected backend, reply returned verbatim; state unchanged |
| MemoryModel.Free | core/iwasm/common/wasm_memory.c:191-216 | free of NULL only logs a warning and reaches no backend in any mode; in unknown mode only a warning; otherwise exactly one free request of that pointer to the selected backend; state unchanged |
| MemoryModel.GetMemAllocInfo | core/iwasm/common/wasm_memory.c:242-249 | true only in pool mode; in pool mode the pool's introspection answer through the stored handle; no request and false in every other mode; state unchanged |
| MemoryRuns.Step | core/iwasm/common/wasm_memory.c:85-249 | every public call keeps the invariant and sends no backend a malformed request; only a destroy in pool mode with leak verification built in can exit |
| MemoryRuns.Run | core/iwasm/common/wasm_memory.c:17-33 | over any sequence of calls from a state satisfying the invariant, the invariant still holds at the end, and no backend ever received a zero-size malloc, a free of NULL, a NULL pool handle or a NULL callback |
| MemoryRuns.RunSameBackend | core/iwasm/common/wasm_memory.c:17-33 | two states with the same mode and the same backend fields for that mode return the same results and make the same requests under every sequence of calls; fields the mode does not use are never read |
| MemoryRuns.RunAfterDestroy | core/iwasm/common/wasm_memory.c:116-131 | after a completed destroy, every sequence of calls returns exactly the results and makes exactly the requests it would at process start |
| MemoryRuns.RunUninitialized | core/iwasm/common/wasm_memory.c:133-249 | in unknown mode and without an init: malloc and realloc return NULL, free and destroy do nothing, the pool size is UINT32_MAX, statistics are unavailable, no backend receives any request and the state never changes |
| WasmMemory.Runtime.constructor | core/iwasm/common/wasm_memory.c:17-33 | the statics start zeroed in unknown mode, with an empty trace, satisfying the invariant |
| WasmMemory.Runtime.InitWithPool | core/iwasm/common/wasm_memory.c:35-48 | the fields, result and trace follow `MemoryModel.InitWithPool` |
| WasmMemory.Runtime.InitWithAllocator | core/iwasm/common/wasm_memory.c:51-66 | the fields, result and trace follow `MemoryModel.InitWithAllocator` |
| WasmMemory.Runtime.MemoryInit | core/iwasm/common/wasm_memory.c:85-114 | the fields, result and trace follow `MemoryModel.MemoryInit` |
| WasmMemory.Runtime.MemoryDestroy | core/iwasm/common/wasm_memory.c:116-131 | the fields, outcome and trace follow `MemoryModel.MemoryDestroy` |
| WasmMemory.Runtime.MallocInternal | core/iwasm/common/wasm_memory.c:142-163 | result and trace follow `MemoryModel.MallocInternal`; only the trace changes |
| WasmMemory.Runtime.Malloc | core/iwasm/common/wasm_memory.c:218-228 | result and trace follow `MemoryModel.Malloc`; only the trace changes |
| WasmMemory.Runtime.ReallocInternal | core/iwasm/common/wasm_memory.c:165-189 | result and trace follow `MemoryModel.Realloc`; only the trace changes |
| WasmMemory.Runtime.Realloc | core/iwasm/common/wasm_memory.c:230-234 | the public wrapper behaves as the internal reallocation |
| WasmMemory.Runtime.FreeInternal | core/iwasm/common/wasm_memory.c:191-216 | the trace follows `MemoryModel.Free`; only the trace changes |
| WasmMemory.Runtime.Free | core/iwasm/common/wasm_memory.c:236-240 | the public wrapper behaves as the internal free |
| WasmMemory.Runtime.GetMemAllocInfo | core/iwasm/common/wasm_memory.c:242-249 | result and trace follow `MemoryModel.GetMemAllocInfo`; only the trace changes |
| WasmMemory.PoolLifecycle | core/iwasm/common/wasm_memory.c:85-228 | init over a buffer whose pool creation succeeds returns true and reports the configured size; malloc and realloc return the pool's replies; after destroy, malloc returns NULL and the pool size is UINT32_MAX again |

## Left out

- The pool allocator's internals (create, malloc, realloc, free, destroy, statistics) are foreign. Their replies are inputs to the operations.
- `os_malloc`, `os_realloc` and `os_free` are foreign. Memory contents and pointer ranges are not modelled, so "realloc preserves contents" and "the pointer lies in the buffer" are not stated.
- The text of the log messages is not modelled. Each warning and error is one `Log` event in the ghost trace.
- The `exit(-1)` of leak detection is modelled as the `LeakExit` outcome, not as process termination. `Run` stops at it.
- Thread safety is left out. The facade has no synchronisation.
- The contents of `mem_alloc_info_t` belong to the pool allocator. Only the boolean answer of the statistics query is modelled.
- The build without `WASM_MEM_ALLOC_WITH_USER_DATA` (wasm_memory.c lines 28-30 and 68-82) is left out. It behaves like the modelled build without the user-data argument.
- `MemAllocOption` is a C union. It is modelled as a record holding both members, because each selector reads only its own member. Aliasing between the members is not modelled.
