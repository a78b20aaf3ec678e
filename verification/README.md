# Lasm runtime protocols in Dafny

A model of the parts of Lasm that decide whether a Lean program behaves the same under a
JavaScript, WASI or Wasmtime host as natively, with proofs over every run and every input.
Each part is a group of files:

- **Task*.dfy**: the cooperative task runtime. `TaskMachine` is a step machine over a heap of
  task objects whose addresses are reused, the scheduler's queue, the two maps of synchronous
  dependents, and the stacks of the fibers. A reference is named by what holds it, so `m_rc` is
  the number of a task's owners. User closures are opaque: a step says what one returned. Every
  task also has an identity that is never reused; the history of identities states what tasks
  mean and is read by no branch. `TaskInvariant` is what every state keeps, `TaskRuns` proves it
  for every step, `TaskSteady` says what a step leaves alone, `TaskTheorems` draws the conclusions,
  `TaskDependents` follows synchronous dependents through a run, `TaskMade` says what each call makes
  of its arguments and `TaskKept` that tasks that keep themselves alive are not lost, `TaskReuse` and
  `TaskReuseExample` treat reused addresses. `TaskRuntime` is the imperative code, whose
  tasks have the program's counter instead of named holders; `TaskCounts` relates the two, and each
  call is proved to make the machine's step.
- **Wasm*.dfy, Canonical*.dfy**: the canonical-import transform of Wasm modules: the binary
  format as decoding functions, with the grammar that they accept and an encoder that they read
  back, what the transform is for, its laws, and the code itself with its cursor, tables and output
  buffer.
- **FunctionIndex, MainSymbols.dfy**: the open-addressing index of function pointers and the
  preparation of the function table.
- **Slot*.dfy**: one shared-memory slot as interleaved atomic steps of a Lean thread, an
  asynchronous server and an inline server; `SlotAnswers` follows what the host gives for a call.
- **Packets, Completions.dfy**: started operations on the host's side: queue, long poll,
  cancellation diversion, and the byte format of what they deliver.
- **Wasi*.dfy**: the WASI host: timers and the event loop, buffered files, directory listings, paths.
- **EdgeController.dfy**: the edge controller with its pending calls, microtasks and callbacks.
- **PosixSignals.dfy**: signal subscriptions in linked lists edited in place.
- **Wrappers, Bytes.dfy**: options, bytes and little-endian words.

`dafny verify dfyconfig.toml` checks everything.

## What the proofs found

- A task can be freed inside its own resolution, when a dependent drops its last reference. If the
  allocator hands its address out before `resolve_task` ends, `lasm_task_resolve` and a stale entry
  of the taken vector act on the new task: work that waits for it starts early
  (runtime/tasks.inc.cpp:54-61). Values stay right, but the early task waits inside `lean_task_get`.
  `ReuseStartsEarly` is such a run, step by step from the start (so the statements about every run are
  about runs that exist). `RunsStartEarlyExactly` gives the exact condition for every run: work starts
  early if and only if some turn of a loop finds its task live without a value and either executes the
  next entry or marks a queued task as ready. `CarefulRunsStartResolved` shows that this takes an
  allocation at the address of a task still being resolved.
- A batch of completions stops at 512 parts, and each completion is two parts, so a batch has at most
  256 completions, not every queued one (scripts/full-lean/host-pre.js:137-145). The others follow in
  later batches; `NothingLost` does not depend on it.
- A blocking wait for a timer that is released meanwhile can be left behind when another timer gets the
  handle and reaches the same generation without a promise: the host then reports a deadlock
  (src/wasi/lasm_wasi.c:602-611). `OrphanedCall` is such a run; `AwaitEvent` says in
  which states exactly a turn ends so, and that without such a release none does.
- A directory entry that does not fit the 65536-byte buffer ends the listing without an error
  (src/wasi/lasm_wasi.c:484). `ReadDirectory` says exactly what is listed,
  `NothingTooLong` when that is everything, and `SilentlyShort` is a call that reports success with nothing.

## Model

| member | source | states |
|---|---|---|
| `TaskTheorems.ValuesMeanWhatTheySay` | runtime/tasks.inc.cpp:122-193 | In every run, a live task with a value has the value its plain meaning gives: a spawned task and a map what their function returned, applied (for a map) to the value the source ended with; a bind the value of the task its function returned; whether the nested task was fused, followed through `task_bind_result`, already had its value, or a synchronous fast path was taken. |
| `TaskTheorems.EveryEndMeans` | runtime/tasks.inc.cpp:134-162 | The same equation for every task identity that ever ended, also when its storage was fused away or freed since. |
| `TaskTheorems.AppliedOnce` | runtime/tasks.inc.cpp:170-193 | In every run no user function is applied twice. |
| `TaskTheorems.EndsStay` | runtime/tasks.inc.cpp:46-49 | A value is final: a task that is live at two points of a run has at the later one the value it had at the earlier one, and an identity that ended keeps its value in every continuation. |
| `TaskTheorems.StepKeepsFinal` | runtime/tasks.inc.cpp:46-193 | One step, of any kind, keeps every value that is there: a task that is live before and after is the same task with the same value, and no identity ends a second time. |
| `TaskSteady.StepLasts` | runtime/tasks.inc.cpp:46-193 | One step, of any kind, leaves every task that is live before and after its identity, its value, and its keep-alive and synchronous flags, and every task that waits, except the one it executes, its closure and scheduling record; no identity ends twice and no origin changes. |
| `TaskTheorems.OnlyLiveTasksWait` | runtime/tasks.inc.cpp:81-101 | In every run, queued and registered tasks, the tasks they wait for, the keys of `sync_dependents` (which have no value) and every `m_next_dep` are live storage, and every running invocation is of a live running task: no freed task can be run. |
| `TaskTheorems.CountsMatchHolders` | runtime/tasks.inc.cpp:92-95 | In every run the references of a task are exactly its holders: the closures that own it, one keep-alive reference while it is scheduled with that flag, one for each frame that will release it; it has none exactly while it runs deleted. |
| `TaskTheorems.FusedHasNoDependents` | runtime/tasks.inc.cpp:144-158 | When `task_bind_fn` may fuse, no closure owns the nested task, nothing is registered or queued for it and it is not running, so freeing it leaves no reference behind. |
| `TaskTheorems.DeletedIsFreedAtItsEnd` | runtime/tasks.inc.cpp:185-189 | A task that was deleted while it ran is freed when its execution ends, whatever its function returned. |
| `TaskTheorems.NothingForgotten` | runtime/tasks.inc.cpp:81-91 | No wakeup is lost, in any state of any run: a synchronous task with a closure is registered with a live dependency, which has no value and lists it or is being resolved by a loop that still has it ahead; another one is ready in the scheduler, or queued for a live dependency that has no value or whose resolution has yet to tell the scheduler. |
| `TaskTheorems.NothingForgottenAtRest` | runtime/tasks.inc.cpp:81-91 | So once no frame is on a stack, every task with a closure waits for a dependency without a value or is ready in the scheduler. |
| `TaskDependents.DependentServed` | runtime/tasks.inc.cpp:46-62 | For every run: a synchronous dependent that is registered when its dependency has its value is executed by a loop that resolves that dependency, or was reclaimed before its turn, by the time no resolution of it is in progress any more; until that step it stays registered and does not run. |
| `TaskDependents.RegistrationStep` | runtime/tasks.inc.cpp:46-91 | No step of any kind ends a registration but the turn of its dependency's loop, which executes the task, or a reclamation. |
| `TaskDependents.OnlyRegisteredExecuted` | runtime/tasks.inc.cpp:54-60 | A turn of a loop executes only a task that is registered with the loop's own task; a stale entry of the taken vector starts nothing. |
| `TaskMade.KeepAliveEnds` | runtime/tasks.inc.cpp:92-95 | For every run: a task made by a spawn, map or bind with the keep-alive flag is not lost, whatever happens to the references to it. At every later point its identity has ended with a value, or a live task that is scheduled or runs, and keeps itself alive, stands for it. |
| `TaskMade.SpawnMakes` | runtime/tasks.inc.cpp:117-121 | A spawn makes a task without a value whose closure is the new function, with the keep-alive flag of the call and its reference; it is ready and nothing else changes. |
| `TaskMade.ThenMakes` | runtime/tasks.inc.cpp:125-132 | A map or bind, unless it is synchronous on a task with a value, makes a task with the two flags of the call, whose closure holds the function and the reference to the source; it is ready, or queued behind the source, or registered with it. |
| `TaskMade.ThenApplies` | runtime/tasks.inc.cpp:163-165 | A synchronous map or bind of a task with a value applies its function in the caller, to that value, and makes no task yet. |
| `TaskMade.FastMapMakes` | runtime/tasks.inc.cpp:127-128 | The result of such a map is a new task that has what the function returned. |
| `TaskMade.PlainMakes` | runtime/tasks.inc.cpp:216-221 | The task of a new promise has neither value nor closure and is held by the promise; a pure task (`lean_task_pure`, line 110) has the given value. |
| `TaskMade.StartExecutes` | runtime/tasks.inc.cpp:170-181 | An execution takes the closure out of the task, which then runs as the current task of its fiber; `lasm_task_execute` keeps the keep-alive flag it found. |
| `TaskMade.GetApplies` | runtime/tasks.inc.cpp:122-135 | The function of a running map or bind is applied to the value of its own source. |
| `TaskMade.ReturnGives` | runtime/tasks.inc.cpp:181-190 | What the function of a task returns becomes the value of that task and of every identity fused into it, unless the task was deleted meanwhile. |
| `TaskMade.ReturnFollows` | runtime/tasks.inc.cpp:134-136 | The task that the function of a bind returns is recorded as the function's result; in a synchronous caller that task is the result itself. |
| `TaskMade.ReturnContinues` | runtime/tasks.inc.cpp:139-161 | An unresolved nested task is fused exactly when it has a closure, does not run, has no reference but the returned one and its keep-alive one, and keeps itself alive only if the running task does: then it is gone and the running task stands for what it stood for. Otherwise it stays and the running task owns it. |
| `TaskMade.ResolveGives` | runtime/tasks.inc.cpp:222-237 | Resolving a promise gives its task that value unless it has one; so does dropping it, which also gives up the promise's reference. |
| `TaskMade.DropTakes` | runtime/tasks.inc.cpp:63-80 | Dropping a reference frees the task exactly when it was the last one and the task does not run; any other drop changes nothing else. |
| `TaskMade.LoopTurns` | runtime/tasks.inc.cpp:50-61 | A turn of a resolution loop executes its next entry exactly if that is registered with the loop's task, and takes it out of the registrations; after the last entry, exactly what is queued behind that task becomes ready. |
| `TaskMade.TailReleases` | runtime/tasks.inc.cpp:192-192 | The end of an execution gives up the keep-alive reference of that execution, and the task exactly if it was the last one. |
| `TaskKept.StepKeeps` | runtime/tasks.inc.cpp:46-193 | One step, of any kind, keeps an identity that has ended or that a live task with the keep-alive flag stands for. |
| `TaskRuns.StepInv` | runtime/tasks.inc.cpp:46-193 | Every step of user code, of the scheduler and of the runtime's own frames keeps the whole invariant: storage, references, stacks, waiting, progress, history and meaning. |
| `TaskReuse.RunsStartEarlyExactly` | runtime/tasks.inc.cpp:46-62 | In a run every task that is started or marked as ready has, at every point, a source with a value (so `lean_task_get` does not wait in it) if and only if no turn of a resolution loop finds its task live without a value while the next entry is registered with it or, at the end of the vector, something is queued behind it. |
| `TaskReuse.StepsEarlyExactly` | runtime/tasks.inc.cpp:54-61 | The same for one step. |
| `TaskReuseExample.ReuseStartsEarly` | runtime/tasks.inc.cpp:46-62 | Early turns happen: thirteen steps, each shown possible, reach a state in which a map was started whose source is live and has no value. |
| `TaskRuntime.Runtime.Perform` | runtime/tasks.inc.cpp:46-237 | The imperative functions on the runtime's own tables, with a reference counter in each task and nothing that names its holders, make exactly the step that the scheduler or user code asked for, and the invariant holds after each call: reclaiming and fusing by the counter is reclaiming and fusing by who holds the task. |
| `TaskRuntime.Runtime.Release` | runtime/tasks.inc.cpp:63-80 | `lean_dec_ref`: the task's storage goes exactly when the counter was one and the task does not run; otherwise it stays, and the counters are the numbers of holders again, also of what the closure of a freed task held. |
| `TaskRuntime.FuseReleases` | runtime/tasks.inc.cpp:147-157 | The two `lean_dec_ref` calls on a task that may be fused free exactly that task and nothing else. |
| `WasmBinary.LebRoundTrip` | scripts/full-lean/probes/wasmtime-canonical-imports.h:27-69 | Decoding `lasm_write_leb(v)` followed by anything gives `v` and consumes exactly the bytes written, for every width that holds `v` (section 5.2.2 of the WebAssembly Core Specification 2.0). |
| `WasmGrammar.IntegerIs` | scripts/full-lean/probes/wasmtime-canonical-imports.h:27-38 | An integer is read exactly where the grammar has one of that width, as long as it is, with the value that seven bits of each byte make up (section 5.2.2). |
| `WasmGrammar.ValueTypeIs` | scripts/full-lean/probes/wasmtime-canonical-imports.h:44-56 | A value type is one byte from 0x66 to 0x7f, or 0x63 or 0x64 with a heap type of up to five bytes. |
| `WasmGrammar.LimitsIs` | scripts/full-lean/probes/wasmtime-canonical-imports.h:57-62 | Limits are flags of at most 7, a minimum and, exactly if the flags are odd, a maximum, of 64 bits exactly if the flags are 4 or more. |
| `WasmGrammar.ImportVectorIs` | scripts/full-lean/probes/wasmtime-canonical-imports.h:102-126 | A vector of imports is read exactly where the grammar has one and nothing follows: names, kind byte and the description of that kind (section 5.5.5). |
| `WasmGrammar.ExportVectorIs` | scripts/full-lean/probes/wasmtime-canonical-imports.h:128-141 | A vector of exports is read exactly where the grammar has one and nothing follows (section 5.5.10). |
| `WasmGrammar.ModuleIs` | scripts/full-lean/probes/wasmtime-canonical-imports.h:74-99 | A module is read exactly where the eight bytes are followed by sections: kind byte, size, contents (sections 5.5.2 and 5.5.16). |
| `WasmEncoding.ImportVectorReads` | scripts/full-lean/probes/wasmtime-canonical-imports.h:102-126 | Every vector of imports that the format can write, functions, tables, memories, globals and tags with any limits and value types, is read as these imports in order (section 5.5.5). |
| `WasmEncoding.ExportReads` | scripts/full-lean/probes/wasmtime-canonical-imports.h:131-139 | Every export of the five kinds is read back to its end (section 5.5.10). |
| `WasmEncoding.ModuleReads` | scripts/full-lean/probes/wasmtime-canonical-imports.h:74-99 | The eight-byte header followed by any sections is read as these sections (sections 5.5.2 and 5.5.16). |
| `CanonicalImports.Reader.ReadInteger` | scripts/full-lean/probes/wasmtime-canonical-imports.h:27-38 | The reading loop accepts exactly the encodings the format allows at that width, returns their value and leaves the cursor behind them, never past the section's end. |
| `CanonicalImports.Reader.ReadName` | scripts/full-lean/probes/wasmtime-canonical-imports.h:39-43 | A name is read exactly when its length and bytes are there. |
| `CanonicalImports.Reader.SkipValueType` | scripts/full-lean/probes/wasmtime-canonical-imports.h:44-56 | Value types are skipped exactly when they are of the accepted form. |
| `CanonicalImports.Reader.SkipLimits` | scripts/full-lean/probes/wasmtime-canonical-imports.h:57-62 | Limits, of 32 or 64 bits and with or without a maximum, are skipped exactly when well formed. |
| `CanonicalImports.Reader.ReadImport` | scripts/full-lean/probes/wasmtime-canonical-imports.h:109-123 | One import is read exactly when its names and description decode; a function is imported exactly when the byte behind the two names is 0. |
| `CanonicalImports.Reader.ReadExport` | scripts/full-lean/probes/wasmtime-canonical-imports.h:131-139 | One export is read exactly when it decodes and its name is not reserved. |
| `CanonicalImports.Scan` | scripts/full-lean/probes/wasmtime-canonical-imports.h:77-99 | The scan succeeds exactly on modules whose sections decode with at most one import and one export section, and finds both sections and the bytes to replace or the place to insert. |
| `CanonicalImports.ReadImports` | scripts/full-lean/probes/wasmtime-canonical-imports.h:102-126 | The import section is accepted exactly when it is a vector of imports and nothing else; the table holds its function imports in order. |
| `CanonicalImports.ReadExports` | scripts/full-lean/probes/wasmtime-canonical-imports.h:128-141 | The export section is accepted exactly when it is a vector of exports without a reserved name; the bytes of its entries are kept. |
| `CanonicalImports.LebSize` | scripts/full-lean/probes/wasmtime-canonical-imports.h:63-65 | The computed size of an encoding is the number of bytes written. |
| `CanonicalImports.WriteLeb` | scripts/full-lean/probes/wasmtime-canonical-imports.h:66-69 | The writing loop appends the encoding and nothing else. |
| `CanonicalImports.Measure` | scripts/full-lean/probes/wasmtime-canonical-imports.h:143-150 | The computed payload is the size of the bytes that will be written, for every table that fits. |
| `CanonicalImports.Write` | scripts/full-lean/probes/wasmtime-canonical-imports.h:151-164 | The output buffer, of the precomputed size, is filled exactly: the bytes before, one export section, the bytes after. |
| `CanonicalImports.Canonicalize` | scripts/full-lean/probes/wasmtime-canonical-imports.h:70-170 | The whole function fails exactly on the modules outside the specification, leaves a module without function imports alone, and otherwise returns the specified output. |
| `CanonicalSpec.OutputMeans` | scripts/full-lean/probes/wasmtime-canonical-imports.h:142-165 | The output decodes as the input's sections, byte for byte and in order, with one export section that holds the old exports followed by the added ones (sections 5.5.2 and 5.5.10). |
| `CanonicalTheorems.OnlyExportsChange` | scripts/full-lean/probes/wasmtime-canonical-imports.h:76-165 | All sections but the export section are the input's; there is exactly one export section and it lists old exports, then added ones. |
| `CanonicalTheorems.OthersKept` | scripts/full-lean/probes/wasmtime-canonical-imports.h:154-164 | Replacing or inserting the section keeps the others, in order. |
| `CanonicalTheorems.NewExports` | scripts/full-lean/probes/wasmtime-canonical-imports.h:142-165 | The export section of the output holds the old exports followed by one function export for each import with kind byte 0, named "\0lasm.import." and the ordinal in decimal, whose index is the number of function imports before it, and by nothing else. |
| `CanonicalTheorems.ChangesWhen` | scripts/full-lean/probes/wasmtime-canonical-imports.h:142-142 | An accepted module is left alone exactly when none of its imports has kind byte 0. |
| `CanonicalTheorems.ReadableMeans` | scripts/full-lean/probes/wasmtime-canonical-imports.h:76-141 | A module can be read exactly when its sections decode with at most one of kind 2, a vector of imports, and at most one of kind 7, a vector of exports none of whose names starts with the reserved bytes. |
| `CanonicalTheorems.RefusedWhen` | scripts/full-lean/probes/wasmtime-canonical-imports.h:143-150 | A readable module with function imports is refused exactly for one of three sizes: the number of exports, the room behind the last added name in 32 bits, or the size of the output. |
| `CanonicalSpec.AddedAreTheFunctionImports` | scripts/full-lean/probes/wasmtime-canonical-imports.h:108-124 | The added exports are exactly the imports with kind byte 0, each once and in order, under its ordinal; its index is the number of earlier imports with kind byte 0. |
| `CanonicalSpec.PayloadDecodes` | scripts/full-lean/probes/wasmtime-canonical-imports.h:157-163 | The new section's contents decode as the kept exports followed by one export for each entry of the table. |
| `CanonicalSpec.BodyFits` | scripts/full-lean/probes/wasmtime-canonical-imports.h:144-150 | The test before each name leaves room for the entry, so the payload of an accepted module fits 32 bits. |
| `CanonicalSpec.NamesDiffer` | scripts/full-lean/probes/wasmtime-canonical-imports.h:14-18 | Different ordinals get different names. |
| `CanonicalSpec.NameFits` | scripts/full-lean/probes/wasmtime-canonical-imports.h:14-18 | Every name fits its 64-byte buffer. |
| `CanonicalSpec.DecimalMeans` | scripts/full-lean/probes/wasmtime-canonical-imports.h:14-18 | The digits of a name are the ordinal in decimal: digits only, no leading zero, and read back they give the ordinal. |
| `CanonicalTheorems.AddedNamesAreFresh` | scripts/full-lean/probes/wasmtime-canonical-imports.h:131-148 | Added names differ from each other and from every old name. |
| `CanonicalTheorems.AppliedTwice` | scripts/full-lean/probes/wasmtime-canonical-imports.h:134-137 | Applying the transform to its own output is rejected. |
| `CanonicalTheorems.OrderKept` | scripts/full-lean/probes/wasmtime-canonical-imports.h:89-97 | If the sections were in the order the format wants, they still are. |
| `FunctionIndex.AndMask` | scripts/full-lean/probes/wasmtime-main-symbols.h:7-9 | Masking with a power of two less one is the remainder, for the bitwise operations written out bit by bit. |
| `FunctionIndex.FreeSlot` | scripts/full-lean/probes/wasmtime-main-symbols.h:8-9 | The index always has a free slot, so every probe ends. |
| `FunctionIndex.StopsRight` | scripts/full-lean/probes/wasmtime-main-symbols.h:8-10 | A probe stops at the identity exactly when the map has it, and there with the map's pointer. |
| `FunctionIndex.Filled` | scripts/full-lean/probes/wasmtime-main-symbols.h:55-55 | Filling or overwriting the slot where a probe stops keeps the index in agreement with the updated map. |
| `FunctionIndex.Index.Find` | scripts/full-lean/probes/wasmtime-main-symbols.h:4-11 | The probing loop ends, at the slot that holds the identity or the free one where it belongs. |
| `FunctionIndex.Index.Put` | scripts/full-lean/probes/wasmtime-main-symbols.h:83-83 | Storing at that slot updates the map at that identity and nowhere else. |
| `MainSymbols.PointersIdentify` | scripts/full-lean/probes/wasmtime-main-symbols.h:52-58 | Two indexed pointers are equal exactly when they are of one function. |
| `MainSymbols.StoresAgree` | scripts/full-lean/probes/wasmtime-main-symbols.h:59-61 | Stores that know the same functions under any distinct addresses index the same functions and give each the same pointer. |
| `MainSymbols.PendingMeans` | scripts/full-lean/probes/wasmtime-main-symbols.h:71-87 | The functions that get a new entry are exactly those exported under a name without a zero byte and missing from the table. |
| `MainSymbols.PendingOnce` | scripts/full-lean/probes/wasmtime-main-symbols.h:82-85 | None gets two. |
| `MainSymbols.PendingInOrder` | scripts/full-lean/probes/wasmtime-main-symbols.h:71-87 | They come in the order of their first exports. |
| `MainSymbols.EveryExportHasAnEntry` | scripts/full-lean/probes/wasmtime-main-symbols.h:59-61 | After preparation every function exported under a name without a zero byte has a table entry. |
| `MainSymbols.Probe.Capacity` | scripts/full-lean/probes/wasmtime-main-symbols.h:28-37 | The computed capacity is a power of two, at least twice the entries, and exists exactly up to the allocation limit. |
| `MainSymbols.Probe.IndexTable` | scripts/full-lean/probes/wasmtime-main-symbols.h:43-58 | Each function of the table is indexed with its last entry; it fails exactly when an entry is no function reference. |
| `MainSymbols.Probe.IndexExports` | scripts/full-lean/probes/wasmtime-main-symbols.h:71-87 | The pending functions are found in export order, and the index already has their future entries. |
| `MainSymbols.Probe.Grow` | scripts/full-lean/probes/wasmtime-main-symbols.h:88-99 | The table is the old one followed by the pending functions. |
| `MainSymbols.Probe.Prepare` | scripts/full-lean/probes/wasmtime-main-symbols.h:13-104 | Preparation succeeds exactly when the sizes allow it and every entry is a function reference; old entries are unchanged, and the index names each function's last entry. |
| `MainSymbols.Probe.Lookup` | scripts/full-lean/probes/wasmtime-main-symbols.h:153-164 | The function branch of a lookup returns the last table entry of the function exported under exactly that name, and fails only when that function has no entry. |
| `SlotTheorems.DispatchedOnce` | scripts/full-lean/host-pre.js:189-230 | In every interleaving of the thread, the asynchronous server and the inline server, each call is dispatched at most once, as the operation it asked for, in the order of the calls, also when the slot is served inline before its registration is handled. |
| `SlotAnswers.ReplyIsTheAnswer` | scripts/full-lean/host-library.js:106-166 | Exactly the calls that are over have returned. Each asked what the thread began it with, was dispatched so unless the host could not be loaded, and returned the status and all bytes that the host's own step gave for it: the reply of the operation or its promise as it is, status 2 with the text of an exception, or what an inline server says of an operation that is not done. |
| `SlotAnswers.AnswerStays` | scripts/full-lean/host-pre.js:166-181 | An answer is given once: no step replaces it. |
| `SlotAnswers.Served` | scripts/full-lean/host-pre.js:189-216 | A request served at once is dispatched as it was posted and answered by its outcome: a result as it is, an exception as status 2 with its text; a promise is awaited by the asynchronous server, while the inline one answers status 0 without bytes for kind 0 and operations 3 and 4, and status 1 otherwise. |
| `SlotAnswers.Loaded` | scripts/full-lean/host-pre.js:214-215 | A request that waited for the host is dispatched once it is loaded and answered by its outcome. |
| `SlotAnswers.LoadFailed` | scripts/full-lean/host-pre.js:214-215 | If the host cannot be loaded the request is answered with status 2 and that text, and not dispatched. |
| `SlotAnswers.SettledReply` | scripts/full-lean/host-pre.js:211-212 | A promise that settles answers exactly the call that waits for it, with its own result. |
| `SlotTheorems.TwoExchanges` | scripts/full-lean/host-library.js:147-163 | A call takes at most two exchanges; the second always finds the kept reply, which fits the grown buffer, and the thread never reads past its buffer. |
| `SlotTheorems.NoLostWakeUp` | scripts/full-lean/host-pre.js:217-230 | A thread asleep on a request always leaves the host something to do: a step, the registration message, a microtask or a promise; if the reply is there, the host is about to wake it. |
| `SlotTheorems.CallsCanReturn` | scripts/full-lean/host-library.js:106-130 | From every reachable state of a call there is a run to its return. |
| `SlotSteps.StepKeeps` | scripts/full-lean/host-pre.js:166-295 | Every atomic step of the thread and of both servers keeps the invariant of the slot. |
| `Packets.BatchRoundTrip` | scripts/full-lean/host-pre.js:139-148 | Reading a batch of records gives back exactly its packets, in order. |
| `Packets.RecordLayout` | scripts/full-lean/host-pre.js:110-147 | A record is the size of what follows, promise, resource and kind as little-endian 64-bit words, a word that is 1 for a failure, and the bytes. |
| `Packets.HeadersLayout` | scripts/full-lean/host-pre.js:117-130 | A reply of diverted headers is promise, resource and kind of each, 24 bytes apart. |
| `Packets.ReadBatch` | runtime/node-async.cpp:128-141 | The offset-advancing loop reads a batch to its end exactly when it is made of whole records, and gets those. |
| `Packets.ReadHeaders` | runtime/node-async.cpp:243-246 | The loop over a reply of diverted headers drops exactly those headers' references. |
| `Completions.ReleasedOnce` | runtime/node-async.cpp:190-209 | Every started operation, also one refused at once, is in exactly one place at any time: unsettled, queued, diverted for one handle, delivered to the completion thread, or released by the thread that started or cancelled it; in that place once, so its references are released at most once and by one thread. |
| `Completions.NothingLost` | scripts/full-lean/host-pre.js:21-27 | What the completion thread has read from all replies, followed by what is queued, is all completions enqueued, in order; it never waits while something is queued. |
| `Completions.BatchSize` | scripts/full-lean/host-pre.js:141-146 | A batch takes completions up to a failure or until 512 parts are there; each completion is two parts. |
| `Completions.Host.Start` | scripts/full-lean/host-pre.js:83-116 | A checked synchronous failure registers nothing and its references are released by the starting thread; otherwise the operation is unsettled with the result it returned, if it returned one. |
| `Completions.Host.Settle` | scripts/full-lean/host-pre.js:103-112 | A failed result whose first word is 10, during a cancel call on the handle, is diverted; every other result is enqueued with its own header, flag and bytes, or handed to the waiting thread as a batch of that record. |
| `Completions.Host.Reject` | scripts/full-lean/host-pre.js:113-114 | A rejection is passed on as a failure. |
| `Completions.Host.Complete` | scripts/full-lean/host-pre.js:21-27 | A completion goes to the waiting thread as a batch of one, or to the end of the queue. |
| `Completions.Host.Cancel` | scripts/full-lean/host-pre.js:131-131 | From a cancel call on, cancellations of the handle are diverted. |
| `Completions.Host.TakeDropped` | scripts/full-lean/host-pre.js:117-130 | The cancelling thread gets all diverted headers of the handle, once; it is deferred exactly while an operation of the handle that returned a promise is unsettled. |
| `Completions.Host.TakeBatch` | scripts/full-lean/host-pre.js:139-148 | One batch is the encoded records of the longest allowed front of the queue, or a failure alone. |
| `Completions.Host.Poll` | scripts/full-lean/host-pre.js:149-153 | The long poll replies with a batch or waits, and waits exactly when the queue is empty. |
| `WasiTimers.EventLoop.AwaitEvent` | src/wasi/lasm_wasi.c:628-651 | One turn of the wait. It reports a deadlock if and only if no completion and no request is there, nothing is armed, nobody sleeps, firing settled nothing, and the innermost blocked call, if any, waits for a promise of a live timer that is neither done nor replaced; when nothing was armed or sleeping before, the same test on the state before decides. Without a release of a timer that a blocked call named, no blocked call is left behind. It reports an event exactly when there is one (a completion, a fired promise, a finished request, a sleep that is due, a blocked call whose promise is done or gone) and never sleeps past the next deadline. |
| `WasiTimers.OrphanedCall` | src/wasi/lasm_wasi.c:602-611 | A deadlock with a blocked call happens: a run in which a call blocked on a released timer is left behind when another timer gets its handle. |
| `WasiTimers.EventLoop.SettleWaiters` | src/wasi/lasm_wasi.c:570-581 | Exactly the waiters of that promise complete, each once; the others stay. |
| `WasiTimers.EventLoop.AddResource` | src/wasi/lasm_wasi.c:188-199 | A new resource gets the lowest free handle from 10 on. |
| `WasiTimers.EventLoop.MakeTimer` | src/wasi/lasm_wasi.c:833-838 | A new timer, initial and without a promise, at that handle. |
| `WasiTimers.EventLoop.Promise` | src/wasi/lasm_wasi.c:839-845 | A new promise is made for an initial timer, which is armed, and for a running repeating one without an unsettled promise; nothing else changes. |
| `WasiTimers.EventLoop.Reset` | src/wasi/lasm_wasi.c:853-853 | The delay of a running timer starts again; others are untouched. |
| `WasiTimers.EventLoop.DropPromise` | src/wasi/lasm_wasi.c:584-587 | Whoever waits for the promise is told of the cancellation, once; nobody waits for that timer any more. |
| `WasiTimers.EventLoop.Stop` | src/wasi/lasm_wasi.c:854-859 | The timer is disarmed and finished and its waiters are cancelled. |
| `WasiTimers.EventLoop.Cancel` | src/wasi/lasm_wasi.c:860-867 | Only a running timer with a promise is cancelled; a repeating one keeps running, another is initial again. |
| `WasiTimers.EventLoop.StartWait` | src/wasi/lasm_wasi.c:702-717 | An asynchronous wait completes at once, is added for the current promise, or never completes, by the state of the timer. |
| `WasiTimers.EventLoop.BlockOnTimer` | src/wasi/lasm_wasi.c:846-852 | A blocking wait returns, blocks on the current promise, or is a fatal error, by the state of the timer. |
| `WasiTimers.EventLoop.BlockFor` | src/wasi/lasm_wasi.c:830-830 | A sleep blocks until its due time; a zero sleep returns. |
| `WasiTimers.EventLoop.TakeCall` | src/wasi/lasm_wasi.c:653-660 | The innermost blocked call is taken; it is told of a cancellation exactly when its promise is gone or not settled. |
| `WasiTimers.EventLoop.Release` | src/wasi/lasm_wasi.c:682-690 | A released timer takes its waiters with it. |
| `WasiTimers.EventLoop.FireTimers` | src/wasi/lasm_wasi.c:588-599 | A timer changes, and a wait for it completes, only if it is armed and its due time is not after the clock that was read; every such timer fires: its promise is done, each wait for it completes without a cancellation, a repeating one with a period is armed again for that many milliseconds later, another is finished. |
| `WasiTimers.EventLoop.NextDeadline` | src/wasi/lasm_wasi.c:613-624 | The earliest deadline of an armed timer or a sleep, if there is one. |
| `WasiTimers.EventLoop.TakeCompletions` | src/wasi/lasm_wasi.c:728-734 | All completions so far are taken, in order, with those of every timer that is due by now and of the request that finished; nothing is taken that was not asked for. |
| `WasiFiles.File.Fill` | src/wasi/lasm_wasi.c:371-380 | Refilling keeps the bytes to be read and moves what the host gives of the next 4096 into the buffer; the end of the file is reached exactly when nothing is left to give; a failure loses nothing and says so. |
| `WasiFiles.File.ReadFile` | src/wasi/lasm_wasi.c:381-398 | The next piece of the stream: what is pending, up to what was asked for, or else what the host gives of that many bytes, at most 2^30; empty without an error only at the end of the file. |
| `WasiFiles.File.GetLine` | src/wasi/lasm_wasi.c:399-413 | The next line: a newline only at its end, none only at the end of the file; an error loses nothing. |
| `WasiFiles.File.Rewind` | src/wasi/lasm_wasi.c:745-753 | Back to the start of the file, also for the bundled one. |
| `WasiDirectory.ReadDirectory` | src/wasi/lasm_wasi.c:457-491 | It succeeds exactly when none of its `fd_readdir` calls fails, and then lists, once and in order, every name but "." and ".." before the first entry that 65536 bytes cannot hold, given that `fd_readdir` truncates and resumes as wasi_snapshot_preview1 says. |
| `WasiDirectory.ReadChunk` | src/wasi/lasm_wasi.c:472-483 | The whole entries of one buffer are taken and the cookie resumes behind them. |
| `WasiDirectory.NothingTooLong` | src/wasi/lasm_wasi.c:474-484 | The list is complete, in its length and in its names, if and only if every entry fits the buffer. |
| `WasiDirectory.SilentlyShort` | src/wasi/lasm_wasi.c:474-484 | A directory whose first name has 65513 letters is listed as empty, without an error, although more follows. |
| `WasiDirectory.DirentReads` | src/wasi/lasm_wasi.c:475-477 | The fields read at an entry's offsets are that entry's. |
| `WasiDirectory.ResumesAfter` | src/wasi/lasm_wasi.c:482-482 | The cookie of an entry resumes the listing right behind it. |
| `WasiPaths.Normalize` | src/wasi/lasm_wasi.c:258-283 | The backtracking buffer, within its allocation, ends with the normal form of the path and its terminator. |
| `WasiPaths.Backtrack` | src/wasi/lasm_wasi.c:272-276 | Going back removes exactly the last component, and nothing at the root. |
| `WasiPaths.Append` | src/wasi/lasm_wasi.c:277-278 | Going down appends one component with its slash. |
| `WasiPaths.NormalizedIsNormal` | src/wasi/lasm_wasi.c:258-283 | The result is a normal path; a rooted one normalizes to itself. |
| `WasiPaths.RelativeToWorkingDirectory` | src/wasi/lasm_wasi.c:257-268 | A relative path is walked from the working directory, component by component, an absolute one from the root; ".." at the root stays there. |
| `WasiPaths.PathGoesOn` | src/wasi/lasm_wasi.c:268-283 | For every path: a slash or "." behind it changes nothing, a name behind it is one more component, and a name followed by ".." is nothing. |
| `WasiPaths.PathStarts` | src/wasi/lasm_wasi.c:257-268 | A path starts at the root or behind the working directory; ".." at the root and at "." stays there; it ends at its first zero byte. |
| `WasiPaths.Locate` | src/wasi/lasm_wasi.c:285-303 | The search finds a longest matching name among all preopened directories, and the tail behind it. |
| `WasiPaths.ContainsMeans` | src/wasi/lasm_wasi.c:293-293 | The comparison of texts holds exactly when the directory's components are a prefix of the path's. |
| `WasiPaths.LocatedRight` | src/wasi/lasm_wasi.c:285-303 | A directory is found exactly when one contains the path; it has the most components of those; and its name and the path inside it make up the path again. |
| `EdgeController.TurnEnds` | src/edge/edge-pre.js:65-167 | Unless poisoned, when a JavaScript turn is over and no microtask is due, the controller is idle or suspended, no host event is queued, no result of the innermost call waits; a suspended one can be woken and an idle one has no pending call. |
| `EdgeController.Controller.AwaitTurn` | runtime/edge.cpp:64-73 | A turn of the innermost waiting frame takes a result exactly when the last pending call is done: the result recorded there for the call that this frame made, which it removes with nothing else. It goes on when other work or events were there, and suspends or stops only when nothing was. |
| `EdgeController.Controller.TakeCall` | src/edge/edge-pre.js:126-127 | The result taken is the one recorded for the call of the innermost waiting frame. |
| `EdgeController.Controller.Call` | src/edge/edge-pre.js:98-119 | A call waits exactly when it returned a promise and Lean may suspend; inside a synchronous callback none does; which operations stop the instance instead. |
| `EdgeController.Controller.Wait` | src/edge/edge-pre.js:128-132 | Lean's stack is switched out, and woken at once exactly when something is there. |
| `EdgeController.Controller.Notice` | src/edge/edge-pre.js:134-137 | An idle controller pumps, a waiting one is woken, another takes the event at its next poll. |
| `EdgeController.Controller.HostEvent` | src/edge/edge-pre.js:134-137 | After an event the controller is not idle and nobody sleeps through it. |
| `EdgeController.Controller.Done` | src/edge/edge-pre.js:72-72 | The end of an entry pumps again exactly when events are queued. |
| `EdgeController.Controller.Poison` | src/edge/edge-pre.js:47-56 | A failure stops the instance. |
| `EdgeController.Controller.BeginCallback` | src/edge/edge-pre.js:148-153 | A synchronous call is refused by a stopped instance; otherwise it runs on this stack. |
| `EdgeController.Controller.EndCallback` | src/edge/edge-pre.js:162-165 | The state is what the callback found, and an idle controller pumps in a microtask. |
| `EdgeController.Controller.EndEntry` | src/edge/edge-pre.js:78-80 | An entry that returns is over at once, or when its promise settles. |
| `EdgeController.Controller.Trap` | src/edge/edge-pre.js:74-79 | An exception that unwinds Lean's stack poisons the controller, at once or in a microtask. |
| `EdgeController.Controller.RunSettled` | src/edge/edge-pre.js:104-105 | A settled promise records its result in its own entry only. |
| `EdgeController.Controller.RunNotify` | src/edge/edge-pre.js:105-105 | The entry is then done and the controller told. |
| `PosixSignals.Session` | native/posix-signal.c:62-158 | For every sequence of subscriptions, deliveries, waits, stops, defaults and foreign changes, from any dispositions: the subscriptions are those asked for, one that is never stopped is open, and at the end the handler for a signal that nobody else touched is installed if and only if an open subscription of it exists; otherwise the original disposition is back, or the default if the program asked for it. |
| `PosixSignals.Signals.Run` | native/posix-signal.c:29-158 | In any such sequence a subscriber that has something to read keeps it until it reads, and exactly the catchable signals asked for get a subscription. |
| `PosixSignals.Signals.Open` | native/posix-signal.c:62-104 | A subscription is made exactly for a catchable signal when the pipe and handler can be set up, and heads its list; the first one installs the handler; nobody else's pending bytes change. |
| `PosixSignals.Signals.Deliver` | native/posix-signal.c:29-44 | Every current subscriber of the signal gets one byte, unless its pipe is full; others are untouched, and nobody gets one while the handler is not installed. |
| `PosixSignals.Signals.Wait` | native/posix-signal.c:108-115 | A wait takes up to 64 pending bytes, and reads nothing only after a stop. |
| `PosixSignals.Signals.Find` | native/posix-signal.c:122-123 | The search over the links finds the subscription and what points to it exactly when it is in the list. |
| `PosixSignals.Signals.Stop` | native/posix-signal.c:117-139 | Exactly that subscription leaves the list, the rest keeps its order and its pending bytes; the last one puts the disposition back unless somebody else changed it; a failure changes nothing. |
| `PosixSignals.Signals.ToDefault` | native/posix-signal.c:148-158 | The default is set exactly for a signal without subscribers. |

## Left out

- Tasks: the canceled flag, priorities, `lean_io_wait_any_core` and task states; what values and closures
  release when they are dropped are steps of user code; allocation failures.
- Tasks: the scheduler is not shown in the source; it is modelled by the contract that a queued task runs
  some time after its dependency is resolved unless it was dropped first, and user code of different fibers
  interleaves more freely than real fibers do.
- Canonical imports: error texts and failing allocations; the value is put together by addition instead of
  bit operations on disjoint bits; the 64-byte name buffer is a function, shown to fit.
- Function index: Wasmtime's calls are a table with get, set and grow; the global branch, the Lean registry
  branch and the error path of a lookup; `resolve_function_globals`, which binds globals to the first table
  index of a function and so differs by design from the last one used here.
- Slots: one slot at a time; what the host's thread does for other slots, and the deeper slots it serves inline,
  is a pause of this one. The doorbell, the list of waits, thread identities and the `since` record change no
  step. The kind 3 reply of a failure, which is decoded and encoded again as text, is taken as those bytes. A host exit
  (`LeanExit`) ends the program.
- Completions: operation 96 answered inline inside a synchronous callback; operations 91, 92 and 93, which the
  shared-memory profile's request path does not use; what `resolve_request` builds from a reply's bytes.
- Timers: the order in which the waiters of one promise complete; 64-bit overflow of huge delays; a failing
  `poll_oneoff`; operations other than timers started through op 94, which complete in the same call; what
  other resources do.
- WasiTimers.EventLoop.TakeCall: whether a repeating timer that was renewed before the wait was taken counts
  as cancelled follows the code, and no more is claimed of it.
- WasiTimers.EventLoop.IoPoll: the requests of the target are a count, and the host says which one finished.
- Files: writing, opening, seeking and stat calls; `fd_read` gives at least one byte of a non-empty rest.
- Paths: how the preopened directories and the working directory are found at startup; the calls that use the path.
- Edge: nothing is claimed after poisoning but that the instance refuses calls; the host module is a queue of
  events that notifies after each; stack pointers and listeners; Asyncify builds differ only in how a wait returns.
- Signals: the lock and the signal masks make each function one step; interrupted calls are repeated; closing
  descriptors and freeing a subscription.
- Environment-pointer widening (src/wasi/lasm_wasi_libc.c), release batching (library/c/lasm_js.c,
  src/edge/lasm_js_edge.c) and the bump allocator (src/wasi/lasm_wasi_http.c).
- Operating-system, Node, Wasmtime and Fastly calls, and liveness of the event loop with repeating timers
  nobody awaits.
