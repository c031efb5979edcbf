# Python trace events and the trace-store sqlite3 extension, in Dafny

This project models two parts of the tracer:

- **Event capture** (`PythonTracer/PyTraceEvent1.c`). `PyTraceEvent1` turns one
  Python trace callback into a fixed-width record in the event trace store.
  It samples the enabled resource counters and fills a zeroed record from the
  function, the traits and the samples. It backpatches the previous record
  with the time elapsed since it and the counter deltas, and flags a reverse
  jump. Then it appends the new record through `AllocatePythonTraceEvent1`.
- **The sqlite3 extension entry point** (`TraceStore/TraceStoreSqlite3ExtInit.c`).
  `TraceStoreSqlite3ExtInit` does the following:
  - validates its arguments and allocates the Db structure;
  - loads the two DLLs and resolves their exports;
  - derives the trace session directory from the database file name;
  - sizes, allocates and initializes the session, the stores and the context;
  - creates the two thread pools;
  - registers one virtual-table module per trace store and every trace-store
    function with sqlite3.

  Every failure jumps to a single error exit. That exit waits on the context's
  loading-complete event if it has one.

Files:

| file | module | contents |
|---|---|---|
| `win_types.dfy` | `WinTypes` | `Option`, fixed-width integer types, the C truncating casts |
| `python_trace_event.dfy` | `PythonTraceEvent` | the event record, the event store as a class (records and `PrevAddress`), `AllocatePythonTraceEvent1` |
| `py_trace_event1.dfy` | `PyTraceEvent` | the reference functions of one capture and the imperative `PyTraceEvent1` proved against them |
| `py_trace_event1_properties.dfy` | `PyTraceEventProperties` | what one capture and a run of captures do to the store |
| `session_directory.dfy` | `SessionDirectory` | the backward scan for the session directory |
| `ext_init.dfy` | `TraceStoreSqlite3ExtInit` | the foreign-call oracle, the call plan, its reference run, and the phase methods with the `goto Error` structure |
| `ext_init_properties.dfy` | `TraceStoreSqlite3ExtInitProperties` | bound stores, registered functions, `Result` on the error exit, `ALIGN_UP`, pool bounds |

The model makes these choices:

- **Foreign calls are oracles.** A `Host` value says which Windows, Rtl and
  library calls fail, what each sqlite3 call returns, and the sizes and counts
  the calls report. An `Environment` does the same for one capture.
- **The extension is checked against a reference run.** Each phase method
  records the calls it makes in a log. The reference behaviour is
  `Run(Plan(host, tables), host)`: the planned calls in order, up to and
  including the first one that fails. The imperative code is proved to make
  exactly those calls.
- **`goto` becomes a labelled block.** The jumps to `Finalize` and `Error`
  become `break` out of that block.
- **The event store is a class.** Its fields are updated in place: a sequence
  of records and the `PrevAddress` cursor.

Where the code and its documented intent differ, the model follows the code:

- A failed counter sample turns its category off for the current call only.
  The flags are a local copy, so nothing is sticky.
- An info store whose schema is not the info schema only breaks into the
  debugger. The load goes on.
- The result of a load that fails before the first sqlite3 call is never
  assigned (`Unspecified`).
- The handle-count delta is computed as the code writes it: from the previous
  record's delta field, not its count. This is a defect. The count difference
  is stated separately as `BackpatchIntended`, which no operation uses. See
  "## Findings".
- A reverse jump compares the previous line event's line number with the new
  record's line-or-depth value, whatever the new record's kind. A call event
  holds a stack depth there, so a call at depth 3 after a line event at line 50
  is flagged too (`ReverseJump` does not consult the new record's kind).
- The number of stores the module loop walks is a USHORT product. A product of
  2^16 or more wraps, and the routine silently registers fewer stores (none
  for 256 stores of 256 elements).

## Model

| member | source | states |
|---|---|---|
| `WinTypes.ToUint16` | PythonTracer/PyTraceEvent1.c:135-137 | `(USHORT)x` is congruent to x modulo 2^16 and is x itself when x fits |
| `WinTypes.ToUint32` | PythonTracer/PyTraceEvent1.c:239-247 | `(ULONG)x` is congruent to x modulo 2^32 and is x itself when x fits |
| `WinTypes.ToInt32` | PythonTracer/PyTraceEvent1.c:216-229 | `(LONG)x` is congruent to x modulo 2^32, lies in the signed range, and is x when x fits |
| `WinTypes.ToInt16` | PythonTracer/PyTraceEvent1.c:257-260 | `(SHORT)x` is congruent to x modulo 2^16, lies in the signed range, and is x when x fits |
| `PythonTraceEvent.TraceStore.AllocateRecords` | PythonTracer/PyTraceEvent1.c:28-35 | on success a zeroed block is appended, its first index is returned and the cursor moves to its last record; on failure the store is unchanged |
| `PythonTraceEvent.TraceStore.Write` | PythonTracer/PyTraceEvent1.c:268-285 | a record copy overwrites exactly one record in place and keeps the cursor |
| `PythonTraceEvent.AllocatePythonTraceEvent1` | PythonTracer/PyTraceEvent1.c:19-37 | one zeroed record is appended, and the cursor then addresses it; on failure, null and no change |
| `PyTraceEvent.SampleCounters` | PythonTracer/PyTraceEvent1.c:87-119 | each category stays on iff it was on in the context and its sample call succeeded |
| `PyTraceEvent.FillIdentity` | PythonTracer/PyTraceEvent1.c:121-152 | the zeroed record gets the timestamp, function identity (truncated widths), thread id, traits and line-or-depth value of the reference candidate |
| `PyTraceEvent.BuildEvent` | PythonTracer/PyTraceEvent1.c:87-171 | the built record is the reference candidate: counters copied only for categories still on, others zero |
| `PyTraceEvent.BackpatchLocal` | PythonTracer/PyTraceEvent1.c:190-262 | the previous record gets the truncated elapsed time and the deltas of the categories still on, the handle delta being the new count minus the previous delta as written; the new record is flagged a reverse jump iff the previous was a line event with a greater line-or-depth value |
| `PyTraceEvent.PyTraceEvent1` | PythonTracer/PyTraceEvent1.c:41-288 | the store after the call is `CaptureRecords` of the store before; the call returns true iff a slot was allocated; the cursor invariant is kept |
| `PyTraceEventProperties.CaptureFrame` | PythonTracer/PyTraceEvent1.c:173-287 | one capture appends exactly one record iff a slot is available, leaves every record older than the previous one unchanged, and leaves the previous one alone when there is none or a copy fails |
| `PyTraceEventProperties.NewRecordContents` | PythonTracer/PyTraceEvent1.c:121-171 | the appended record holds the signal's timestamp, identity, thread id and traits, has zero elapsed time and deltas, and holds a counter only when its category is on and sampled |
| `PyTraceEventProperties.NewRecordLineOrDepth` | PythonTracer/PyTraceEvent1.c:147-152 | the combined field is the frame line number for a line event, the call depth otherwise |
| `PyTraceEventProperties.ReverseJumpExactly` | PythonTracer/PyTraceEvent1.c:193-204 | the new record is a reverse jump iff a previous record exists, was copied out, is a line event and has the greater line-or-depth value |
| `PyTraceEventProperties.BackpatchElapsed` | PythonTracer/PyTraceEvent1.c:190-191 | the previous record's elapsed time plus its timestamp gives the new timestamp modulo 2^32, exactly when the gap fits |
| `PyTraceEventProperties.BackpatchDeltas` | PythonTracer/PyTraceEvent1.c:210-262 | per category: on means the truncated new-minus-old counter difference (for handles, new count minus the previous record's handle delta, as written), off means the previous deltas are kept; no other field of the previous record changes |
| `PyTraceEventProperties.DeltasRecoverCounters` | PythonTracer/PyTraceEvent1.c:210-247 | for each memory and I/O counter (working set, page faults, committed size, read and write transfers), old counter plus delta gives the new counter modulo the stored width (USHORT, LONG or ULONG), and exactly when the difference fits that width |
| `PyTraceEventProperties.HandleDeltaIntendedRecoversCount` | PythonTracer/PyTraceEvent1.c:251-262 | the corrected backpatch differs only in the handle delta, and old handle count plus that delta gives the new count modulo 2^16, exactly when the difference fits a SHORT |
| `PyTraceEventProperties.HandleDeltaAsWrittenOfPendingRecord` | PythonTracer/PyTraceEvent1.c:257-260 | as written, a pending previous record's handle delta becomes the new handle count itself |
| `PyTraceEventProperties.HandleDeltaAsWrittenCounterexample` | PythonTracer/PyTraceEvent1.c:257-260 | counts 100 then 105: the backpatch as written gives delta 105, which does not recover the count; the corrected one gives 5, which does |
| `PyTraceEventProperties.SampleFailureIsNotSticky` | PythonTracer/PyTraceEvent1.c:75-97 | a failed memory sample does not turn memory tracing off for the next capture |
| `PyTraceEventProperties.TraceRoundTrip` | PythonTracer/PyTraceEvent1.c:121-152 | N captures into an empty store with every slot granted give N records, the k-th with the k-th signal's identity |
| `PyTraceEventProperties.CaptureStep` | PythonTracer/PyTraceEvent1.c:173-287 | a fully successful capture keeps older records, backpatches the previous one's elapsed time, appends a pending record |
| `PyTraceEventProperties.TraceElapsed` | PythonTracer/PyTraceEvent1.c:190-191 | along a successful run each record but the last holds the truncated time to its successor and the last is pending |
| `PyTraceEventProperties.TraceReverseJumps` | PythonTracer/PyTraceEvent1.c:193-204 | along a successful run the first record is no reverse jump and each later one is exactly when its predecessor is a line event with a greater value |
| `PyTraceEventProperties.LineStreamScenario` | PythonTracer/PyTraceEvent1.c:190-204 | lines 5, 3, 3 at ticks 100, 250, 400: elapsed 150, 150; the second is a reverse jump, the third is not and is pending |
| `SessionDirectory.Length16` | TraceStore/TraceStoreSqlite3ExtInit.c:200 | the USHORT length never exceeds the string's length and equals it when it fits |
| `SessionDirectory.LastBackslashFrom` | TraceStore/TraceStoreSqlite3ExtInit.c:207-211 | the index found holds a backslash and no later index up to the start does |
| `SessionDirectory.DirectoryLength` | TraceStore/TraceStoreSqlite3ExtInit.c:206-214 | the directory length indexes a backslash at or before the USHORT length, with none after it up to that length |
| `SessionDirectory.DeriveSessionDirectory` | TraceStore/TraceStoreSqlite3ExtInit.c:199-215 | the backward walk stops at the last backslash; Length is its index, MaximumLength is Length + 1 truncated to 16 bits, Buffer is the file name |
| `SessionDirectory.DirectoryOfJoinedPath` | TraceStore/TraceStoreSqlite3ExtInit.c:199-215 | the derivation inverts joining a directory and a backslash-free file name |
| `TraceStoreSqlite3ExtInit.Run` | TraceStore/TraceStoreSqlite3ExtInit.c:139-162 | a run is a prefix of its plan that is the whole plan or ends with the failing call |
| `TraceStoreSqlite3ExtInit.RunStopsAtFailure` | TraceStore/TraceStoreSqlite3ExtInit.c:139-162 | nothing after the first failing call is attempted |
| `TraceStoreSqlite3ExtInit.RunReaches` | TraceStore/TraceStoreSqlite3ExtInit.c:139-162 | the run gets past call n iff every call before n succeeded |
| `TraceStoreSqlite3ExtInit.RunConcat` | TraceStore/TraceStoreSqlite3ExtInit.c:139-162 | running two plans in sequence runs the second only if the first fully succeeded |
| `TraceStoreSqlite3ExtInit.Invoke` | TraceStore/TraceStoreSqlite3ExtInit.c:139-162 | a planned call extends the log; on failure the log is the whole reference run |
| `TraceStoreSqlite3ExtInit.LoadModules` | TraceStore/TraceStoreSqlite3ExtInit.c:139-193 | the calls made are the reference run of the load phase; success iff all five calls succeed |
| `TraceStoreSqlite3ExtInit.InitializeSessionDirectory` | TraceStore/TraceStoreSqlite3ExtInit.c:199-231 | the reference run of the path phase; the directory is the file name up to its last backslash once the conversion succeeded |
| `TraceStoreSqlite3ExtInit.ResolveStringTableExports` | TraceStore/TraceStoreSqlite3ExtInit.c:259-273 | the reference run of the four resolutions |
| `TraceStoreSqlite3ExtInit.CreateStringTables` | TraceStore/TraceStoreSqlite3ExtInit.c:314-344 | the reference run of the two allocator initializations and the table creation |
| `TraceStoreSqlite3ExtInit.AllocateSessionAndStores` | TraceStore/TraceStoreSqlite3ExtInit.c:350-418 | the reference run of the sizing phase, with the stores allocation rounded up to the large-page minimum; the stores exist iff it succeeded |
| `TraceStoreSqlite3ExtInit.CreateThreadpools` | TraceStore/TraceStoreSqlite3ExtInit.c:425-464 | the reference run of the pool phase |
| `TraceStoreSqlite3ExtInit.InitializeContext` | TraceStore/TraceStoreSqlite3ExtInit.c:470-525 | the reference run of the context phase; the loading-complete event is captured iff the phase succeeded (GetCu's failure is ignored) |
| `TraceStoreSqlite3ExtInit.RunPrelude` | TraceStore/TraceStoreSqlite3ExtInit.c:139-525 | the calls before the first module are their reference run; the directory and the stores are as the reference Db says |
| `TraceStoreSqlite3ExtInit.InvokeSqlite` | TraceStore/TraceStoreSqlite3ExtInit.c:570-578 | a sqlite3 call returns its code; anything other than SQLITE_OK ends the run |
| `TraceStoreSqlite3ExtInit.BindStore` | TraceStore/TraceStoreSqlite3ExtInit.c:551-568 | store i is bound to the column, schema and table name at index i, and a metadata-info store with the wrong schema is recorded as a mismatch |
| `TraceStoreSqlite3ExtInit.CreateStoreModule` | TraceStore/TraceStoreSqlite3ExtInit.c:551-578 | one loop step binds store i, records a schema mismatch, and makes the i-th planned CreateModule; a non-OK code ends the reference run there |
| `TraceStoreSqlite3ExtInit.RegisterStores` | TraceStore/TraceStoreSqlite3ExtInit.c:540-579 | the module calls are their reference run; exactly the first stores up to the last one attempted are bound; `Result` is the last module's code |
| `TraceStoreSqlite3ExtInit.RegisterFunction` | TraceStore/TraceStoreSqlite3ExtInit.c:587-608 | one function costs one call when the overload fails and two otherwise; the code returned is the last call's, and a non-OK code ends the reference run there |
| `TraceStoreSqlite3ExtInit.RegisterFunctions` | TraceStore/TraceStoreSqlite3ExtInit.c:585-610 | the overload and creation calls are their reference run; `Result` is the last call's code |
| `TraceStoreSqlite3ExtInit.Register` | TraceStore/TraceStoreSqlite3ExtInit.c:540-610 | modules then functions, stopping at the first failure; `Result` is the last sqlite3 code; the schema mismatches are those of the stores the module loop reached |
| `TraceStoreSqlite3ExtInit.LoadSession` | TraceStore/TraceStoreSqlite3ExtInit.c:125-646 | the calls made are the reference run of the whole plan; the Db is the reference Db; success returns SQLITE_OK_LOAD_PERMANENTLY; failure returns the last sqlite3 code and waits iff the context was initialized; the debugger breaks are the expected schema mismatches |
| `TraceStoreSqlite3ExtInit.TraceStoreSqlite3ExtInit` | TraceStore/TraceStoreSqlite3ExtInit.c:92-123 | a missing argument gives SQLITE_ERROR and a failed Db allocation SQLITE_NOMEM, both with no call made, whatever the file name and tables; otherwise the load outcome above |
| `TraceStoreSqlite3ExtInitProperties.AlignUpRoundsUp` | TraceStore/TraceStoreSqlite3ExtInit.c:391 | `AlignUp` (`ALIGN_UP` in 32-bit arithmetic), with a power-of-two alignment and no wrap, gives at least the size and less than one alignment above it |
| `TraceStoreSqlite3ExtInitProperties.AlignUpIsMultiple` | TraceStore/TraceStoreSqlite3ExtInit.c:391 | `AlignUp` gives a multiple of the power-of-two alignment |
| `TraceStoreSqlite3ExtInitProperties.TotalStoresTruncates` | TraceStore/TraceStoreSqlite3ExtInit.c:540-545 | `TotalStores`, the loop bound, is the store-count product truncated to a USHORT: congruent to it modulo 2^16, equal when it fits, smaller otherwise |
| `TraceStoreSqlite3ExtInitProperties.TotalStoresWrapScenario` | TraceStore/TraceStoreSqlite3ExtInit.c:540-545 | 256 stores of 256 elements wrap to a count of zero, so no module is planned |
| `TraceStoreSqlite3ExtInitProperties.ThreadpoolBounds` | TraceStore/TraceStoreSqlite3ExtInit.c:437-461 | the general pool is bounded by P and 2P (when 2P fits in 32 bits), the cancellation pool by 1 and 1 |
| `TraceStoreSqlite3ExtInitProperties.RunFailure` | TraceStore/TraceStoreSqlite3ExtInit.c:139-162 | a run of a plan with a failing call ends on a failing call, after calls that all succeeded |
| `TraceStoreSqlite3ExtInitProperties.ModulesReached` | TraceStore/TraceStoreSqlite3ExtInit.c:545-579 | the module loop reaches store i iff every earlier module was created |
| `TraceStoreSqlite3ExtInitProperties.StoreBound` | TraceStore/TraceStoreSqlite3ExtInit.c:545-579 | after a successful prelude, store i keeps its metadata id and is bound iff it is counted and every earlier module was created |
| `TraceStoreSqlite3ExtInitProperties.FunctionPrefixSucceeds` | TraceStore/TraceStoreSqlite3ExtInit.c:585-610 | the first 2k registration calls succeed iff the first k table entries were registered by both calls; calls carry the entry's index, so duplicate entries get their own answers |
| `TraceStoreSqlite3ExtInitProperties.FunctionsReached` | TraceStore/TraceStoreSqlite3ExtInit.c:585-610 | function k is attempted iff every earlier function was registered |
| `TraceStoreSqlite3ExtInitProperties.FailureResult` | TraceStore/TraceStoreSqlite3ExtInit.c:570-646 | on the error exit `Result` is unassigned iff the failure came before the first module, and otherwise is the failing sqlite3 code, not SQLITE_OK |
| `TraceStoreSqlite3ExtInitProperties.LoadOutcomeShape` | TraceStore/TraceStoreSqlite3ExtInit.c:612-646 | success returns SQLITE_OK_LOAD_PERMANENTLY having made every planned call without waiting; failure ends on the failing call, and `Result` is assigned iff the wait happened |
| `TraceStoreSqlite3ExtInitProperties.SchemaMismatchesIff` | TraceStore/TraceStoreSqlite3ExtInit.c:564-568 | a store is reported iff it was reached, is the metadata-info store and has a schema other than the info schema |
| `TraceStoreSqlite3ExtInitProperties.LoadBreaksIff` | TraceStore/TraceStoreSqlite3ExtInit.c:545-568 | a load breaks into the debugger at store i iff the prelude succeeded, the loop reached i, and store i is the info store with a schema other than the info schema |
| `TraceStoreSqlite3ExtInitProperties.SessionDirectoryOfDatabase` | TraceStore/TraceStoreSqlite3ExtInit.c:199-231 | a database directly inside a directory records that directory once the conversion succeeded |

## Left out

- Foreign calls are oracles, not behaviour. This covers LoadLibraryW, GetProcAddress,
  the heap-allocator initializer, GetModuleRtlPath, the UTF-8 to UTF-16
  conversion and its terminator, the string-table routines, InitializeTraceSession,
  InitializeTraceStores, InitializeTraceContext, the large-page allocation,
  CreateThreadpool, GetCu, sqlite3 Malloc, DbFilename, CreateModule,
  OverloadFunction, CreateFunctionV2 and WaitForSingleObject. It also covers the
  event half's counter samples, clock, thread id, frame line number,
  CopyPythonTraceEvent1 and the store allocator.
- A failed CopyPythonTraceEvent1 is taken to write nothing; the copy routine is not part of this model.
- The session directory is kept as the UTF-8 prefix of the file name; the UTF-16 text is not modelled.
- Diagnostics have no effect on the modelled state: OutputDebugStringA, the `ErrorMessagePointer` strings, and the `__debugbreak` after a failed sqlite3 call. The schema check's `__debugbreak` is the one reported, as the `breaks` list.
- SetCSpecificHandler and SetAtExitEx (ExtInit lines 276-308) are optional exports whose absence is not an error; they are not modelled.
- Thread-pool environment setup (InitializeThreadpoolEnvironment, SetThreadpoolCallbackPool) returns nothing; it is not modelled. The general pool's environment is bound to its pool (lines 444-448), but the cancellation environment is only initialized (lines 462-464) and never bound to the cancellation pool. That is plausibly a defect, and the model does not represent it.
- The Readonly trace flags and context flags (lines 366-367, 470-471) and the session directory buffer passed to InitializeTraceStores (line 406) are arguments of oracle calls. `Initialize(target, size)` does not record them.
- TraceStoreSqlite3ExtInit.InitializeContext: the loading-complete event is taken to be non-NULL once the context is initialized. The source tests the handle itself (line 625), and a NULL event would skip the wait.
- The Db fields that only record the arguments, module handles and function pointers are not modelled; the Db is its session directory and its stores.
- Each store's module copy and its `Db` back-pointer (lines 553-559) are not modelled; a store's binding is its column, schema and table name.
- The static tables (columns, schemas, virtual-table names, the function list) are parameters; their contents are not part of this model. Columns and schemas are compared by address, so they are opaque numbers.
- TraceStoreSqlite3ExtInit.LoadSession: after the wait the source would destroy the session, but that call is commented out (line 642). The wait result therefore changes nothing, and the model records only whether the wait happened.
- SessionDirectory.DeriveSessionDirectory: requires a backslash at or before the starting index. Without one the source reads before the buffer, which is undefined and not represented.
- TraceStoreSqlite3ExtInitProperties.ThreadpoolBounds: states the 2P bound only when 2P fits in 32 bits; above that the maximum wraps (`ToUint32`), as `PoolPlan` models.
- TraceStoreSqlite3ExtInitProperties.AlignUpRoundsUp: stated for power-of-two alignments without 32-bit wrap-around. `ALIGN_UP` is taken to be the usual add-and-mask macro, because its header is not part of this model.
- TraceStoreSqlite3ExtInitProperties.LoadOutcomeShape: does not state that a failed load never returns SQLITE_OK_LOAD_PERMANENTLY. A sqlite3 call could itself return 256.
- The record's bitfield layout (`EventTraitsEx.AsLong` from the traits byte) is modelled as named fields, not bits. `LineNumberOrCallStackDepth` shares that union (line 147) and is taken as 32 bits wide (`ToUint32`); a narrower bit-field would truncate further.
- The allocator's timestamp argument, the memory-mapped growth of the store, and concurrency between tracer threads are not modelled.

## Findings

| source | as written | input that shows it | evidently intended | confidence | as-written member | corrected member |
|---|---|---|---|---|---|---|
| PythonTracer/PyTraceEvent1.c:257-260 | the handle delta is `(SHORT)(new HandleCount - previous HandleDelta)` | previous record pending with 100 handles, new record with 105: the delta written is 105 | `(SHORT)(new HandleCount - previous HandleCount)`, which is 5, the same form as every other counter | high; not executed | `PyTraceEventProperties.HandleDeltaAsWrittenCounterexample` | `PyTraceEventProperties.HandleDeltaIntendedRecoversCount` |
