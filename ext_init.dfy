/** TraceStoreSqlite3ExtInit: the sqlite3 extension entry point that loads a
    trace session's stores read-only and registers each store as a virtual
    table module and each trace-store function with sqlite3.

    The routine is a straight sequence of foreign calls with a single error
    exit. Every foreign call is an oracle: a `Host` value says which calls
    fail and what the sqlite3 calls return, and the calls made are recorded
    in a log. The reference behaviour is `Run(Plan(host, tables), host)`: the
    planned calls in order, up to and including the first one that fails. */
module TraceStoreSqlite3ExtInit {
  import opened WinTypes
  import opened SessionDirectory

  const SQLITE_OK := 0
  const SQLITE_ERROR := 1
  const SQLITE_NOMEM := 7
  const SQLITE_OK_LOAD_PERMANENTLY := 256

  /** Which of the six pointer arguments are non-NULL. */
  datatype Arguments = Arguments(
    rtl: bool,
    sqlite3Allocator: bool,
    tracerConfig: bool,
    sqlite3Db: bool,
    errorMessagePointer: bool,
    sqlite3: bool)

  predicate ArgumentsPresent(args: Arguments) {
    args.rtl && args.sqlite3Allocator && args.tracerConfig &&
    args.sqlite3Db && args.errorMessagePointer && args.sqlite3
  }

  datatype Dll = TracerHeap | StringTable

  /** The exports resolved with GetProcAddress. */
  datatype Export =
    | InitializeHeapAllocatorEx
    | InitializeStringTableAllocator
    | CreateStringTable
    | CreateStringTableFromDelimitedString
    | CreateStringTableFromDelimitedEnvironmentVariable
  datatype Composite = TraceSession | TraceStores | TraceContext
  datatype StringAllocator = StringTableAllocator | StringArrayAllocator
  datatype Pool = General | Cancellation

  /** The foreign calls the routine makes, with the arguments that matter. */
  datatype Call =
    | LoadLibrary(dll: Dll)
    | Resolve(owner: Dll, symbol: Export)         // GetProcAddress
    | InitializeHeapAllocator
    | GetModuleRtlPath
    | ConvertPath                                 // UTF-8 to UTF-16 of the session directory
    | CheckPathTerminated                         // the converted path ends in a NUL
    | InitializeStringAllocator(allocator: StringAllocator)
    | CreateFunctionStringTable
    | Calloc(target: Composite, size: bv32)
    | LargePageAlloc(size: bv32)                  // TryLargePageVirtualAlloc
    | Initialize(target: Composite, size: bv32)
    | CreateThreadpool(pool: Pool)
    | SetThreadBounds(pool: Pool, minimum: uint32, maximum: uint32)
    | GetCu
    | CreateModule(index: nat, virtualTableName: string)
    | OverloadFunction(index: nat, name: string, numberOfArguments: int)
    | CreateFunction(index: nat, name: string, numberOfArguments: int)

  predicate IsSqliteCall(call: Call) {
    call.CreateModule? || call.OverloadFunction? || call.CreateFunction?
  }

  /** The answers of everything outside the routine. */
  datatype Host = Host(
    mallocDb: bool,                // Sqlite3->Malloc of the Db structure
    failing: set<Call>,            // the Windows, Rtl and library calls that fail
    sqliteCodes: map<Call, int>,   // sqlite3 calls returning other than SQLITE_OK
    databaseFilename: CString,     // Sqlite3->DbFilename(Sqlite3Db, "main")
    sessionSize: bv32,             // sizes reported by the NULL-destination calls
    storesSize: bv32,
    contextSize: bv32,
    largePageMinimum: bv32,
    maximumProcessorCount: uint32,
    numberOfTraceStores: uint16,
    elementsPerTraceStore: uint16,
    storeMetadataIds: seq<nat>)    // TraceStoreMetadataId of each store InitializeTraceStores set up

  /** The static tables the routine indexes: per-store columns, schemas and
      virtual-table names, the info schema and the functions to register.
      Columns and schemas are compared by address, so they are references. */
  datatype SqlFunction = SqlFunction(name: string, numberOfArguments: int)
  datatype Tables = Tables(
    columns: seq<nat>,
    schemas: seq<nat>,
    virtualTableNames: seq<string>,
    infoSchema: nat,
    metadataInfoId: nat,
    functions: seq<SqlFunction>)

  /** The value of `Result`: a sqlite3 code, or never assigned. */
  datatype ReturnCode = Code(code: int) | Unspecified

  /** What a store receives before its module is created. */
  datatype StoreBinding = StoreBinding(column: nat, schema: nat, virtualTableName: string)
  datatype StoreSlot = StoreSlot(metadataId: nat, binding: Option<StoreBinding>)

  /** The parts of TRACE_STORE_SQLITE3_DB the model follows. */
  datatype DbState = DbState(sessionDirectory: Option<seq<char>>, stores: seq<StoreSlot>)

  function SqliteResult(host: Host, call: Call): int {
    if call in host.sqliteCodes then host.sqliteCodes[call] else SQLITE_OK
  }

  /** Whether a call lets the routine go on. The results of the
      SetThreadpoolThread* calls and of GetCu are ignored. */
  predicate Succeeds(host: Host, call: Call) {
    if IsSqliteCall(call) then SqliteResult(host, call) == SQLITE_OK
    else if call.SetThreadBounds? || call.GetCu? then true
    else call !in host.failing
  }

  predicate AllSucceed(calls: seq<Call>, host: Host) {
    forall c :: c in calls ==> Succeeds(host, c)
  }

  predicate NoSqliteCalls(calls: seq<Call>) {
    forall c :: c in calls ==> !IsSqliteCall(c)
  }

  /** `ALIGN_UP(size, alignment)` in 32-bit unsigned arithmetic. */
  function AlignUp(size: bv32, alignment: bv32): bv32 {
    (size + (alignment - 1)) & !(alignment - 1)
  }

  /** `TotalNumberOfTraceStores`, a USHORT product. */
  function TotalStores(host: Host): uint16 {
    ToUint16(host.numberOfTraceStores as int * host.elementsPerTraceStore)
  }

  /** The tables and the stores structure have an entry for every store index. */
  predicate TablesCover(host: Host, tables: Tables) {
    var total := TotalStores(host);
    total <= |tables.columns| && total <= |tables.schemas| &&
    total <= |tables.virtualTableNames| && total <= |host.storeMetadataIds|
  }

  // ---------------------------------------------------------------- the plan

  /** Lines 139-193: load the two DLLs, resolve and run the heap allocator
      initializer, get the owning module's path. */
  function LoadPlan(): seq<Call> {
    [LoadLibrary(TracerHeap), LoadLibrary(StringTable),
     Resolve(TracerHeap, InitializeHeapAllocatorEx), InitializeHeapAllocator,
     GetModuleRtlPath]
  }

  /** Lines 217-231: convert the derived directory and check its terminator. */
  function PathPlan(): seq<Call> {
    [ConvertPath, CheckPathTerminated]
  }

  /** Lines 259-273: resolve the string table routines. */
  function ExportPlan(): seq<Call> {
    [Resolve(StringTable, InitializeStringTableAllocator),
     Resolve(StringTable, CreateStringTable),
     Resolve(StringTable, CreateStringTableFromDelimitedString),
     Resolve(StringTable, CreateStringTableFromDelimitedEnvironmentVariable)]
  }

  /** Lines 314-344: initialize both string allocators, create the
      function-name string table. */
  function StringTablePlan(): seq<Call> {
    [InitializeStringAllocator(StringTableAllocator),
     InitializeStringAllocator(StringArrayAllocator),
     CreateFunctionStringTable]
  }

  /** Lines 350-418: the session gets exactly its queried size; the stores
      get their queried size rounded up to the large-page minimum. */
  function SizingPlan(host: Host): seq<Call> {
    var storesSize := AlignUp(host.storesSize, host.largePageMinimum);
    [Calloc(TraceSession, host.sessionSize), Initialize(TraceSession, host.sessionSize),
     LargePageAlloc(storesSize), Initialize(TraceStores, storesSize)]
  }

  /** Lines 425-464: a general pool of P to 2P threads, P the processor
      count, and a cancellation pool of exactly one thread. */
  function PoolPlan(host: Host): seq<Call> {
    var p := host.maximumProcessorCount;
    [CreateThreadpool(General), SetThreadBounds(General, p, ToUint32(p as int * 2)),
     CreateThreadpool(Cancellation), SetThreadBounds(Cancellation, 1, 1)]
  }

  /** Lines 477-525: the context gets exactly its queried size; then nvcuda. */
  function ContextPlan(host: Host): seq<Call> {
    [Calloc(TraceContext, host.contextSize), Initialize(TraceContext, host.contextSize), GetCu]
  }

  /** Lines 540-579: one module per store index, under the table's name. */
  function ModulePlan(host: Host, tables: Tables): seq<Call>
    requires TablesCover(host, tables)
  {
    seq(TotalStores(host), i requires 0 <= i < TotalStores(host) =>
      CreateModule(i, tables.virtualTableNames[i]))
  }

  /** Lines 585-610: an overload then a creation per function. */
  function FunctionPlan(functions: seq<SqlFunction>): seq<Call> {
    seq(2 * |functions|, k requires 0 <= k < 2 * |functions| =>
      var f := functions[k / 2];
      if k % 2 == 0 then OverloadFunction(k / 2, f.name, f.numberOfArguments)
      else CreateFunction(k / 2, f.name, f.numberOfArguments))
  }

  /** Every call before the first sqlite3 call. */
  function Prelude(host: Host): seq<Call> {
    LoadPlan() + (PathPlan() + (ExportPlan() + (StringTablePlan() + (SizingPlan(host) + (PoolPlan(host) +
      ContextPlan(host))))))
  }

  /** The calls up to the one that sets up the trace stores. */
  function ThroughStores(host: Host): seq<Call> {
    LoadPlan() + PathPlan() + ExportPlan() + StringTablePlan() + SizingPlan(host)
  }

  /** The sqlite3 calls: the modules, then the functions. */
  function Registration(host: Host, tables: Tables): seq<Call>
    requires TablesCover(host, tables)
  {
    ModulePlan(host, tables) + FunctionPlan(tables.functions)
  }

  /** The planned calls, in order, when nothing fails. */
  function Plan(host: Host, tables: Tables): seq<Call>
    requires TablesCover(host, tables)
  {
    Prelude(host) + Registration(host, tables)
  }

  /** The calls made when a plan runs with `goto Error` on the first failure:
      the planned calls up to and including the first one that fails. */
  function Run(plan: seq<Call>, host: Host): (log: seq<Call>)
    ensures log <= plan
    ensures |log| == |plan| || (log != [] && !Succeeds(host, log[|log| - 1]))
  {
    if plan == [] then []
    else if Succeeds(host, plan[0]) then [plan[0]] + Run(plan[1..], host)
    else [plan[0]]
  }

  /** The value `Result` holds after a log: the code of the last sqlite3 call. */
  function LastSqliteResult(log: seq<Call>, host: Host): ReturnCode {
    if log == [] then Unspecified
    else if IsSqliteCall(log[|log| - 1]) then Code(SqliteResult(host, log[|log| - 1]))
    else LastSqliteResult(log[..|log| - 1], host)
  }

  /** `Result` after a phase of sqlite3 calls that started from `result0`. */
  function ResultAfter(result0: ReturnCode, host: Host, log: seq<Call>): ReturnCode {
    if log == [] then result0 else Code(SqliteResult(host, log[|log| - 1]))
  }

  /** The stores as InitializeTraceStores leaves them: nothing bound yet. */
  function InitialStores(host: Host): seq<StoreSlot> {
    seq(|host.storeMetadataIds|, i requires 0 <= i < |host.storeMetadataIds| =>
      StoreSlot(host.storeMetadataIds[i], None))
  }

  /** The binding store `i` receives from the tables at the same index. */
  function BindingAt(tables: Tables, i: nat): StoreBinding
    requires i < |tables.columns| && i < |tables.schemas| && i < |tables.virtualTableNames|
  {
    StoreBinding(tables.columns[i], tables.schemas[i], tables.virtualTableNames[i])
  }

  /** The first `n` stores bound from the tables, the rest as they were. */
  function BindStores(stores: seq<StoreSlot>, tables: Tables, n: nat): seq<StoreSlot>
    requires n <= |stores| && n <= |tables.columns| && n <= |tables.schemas| &&
             n <= |tables.virtualTableNames|
  {
    seq(|stores|, i requires 0 <= i < |stores| =>
      if i < n then stores[i].(binding := Some(BindingAt(tables, i))) else stores[i])
  }

  /** The store indexes below `n` whose info-schema check breaks into the debugger. */
  function SchemaMismatches(stores: seq<StoreSlot>, tables: Tables, n: nat): seq<nat>
    requires n <= |stores| && n <= |tables.schemas|
  {
    if n == 0 then []
    else
      SchemaMismatches(stores, tables, n - 1) +
      (if stores[n - 1].metadataId == tables.metadataInfoId && tables.schemas[n - 1] != tables.infoSchema
       then [n - 1] else [])
  }

  /** The Db structure at the end of a load. The session directory is set
      once its conversion succeeded; the stores exist once InitializeTraceStores
      succeeded and are bound up to the last module attempted. */
  function ExpectedDb(host: Host, tables: Tables): DbState
    requires TablesCover(host, tables)
    requires AllSucceed(LoadPlan(), host) ==> ScanDefined(host.databaseFilename)
  {
    var f := host.databaseFilename;
    DbState(
      if AllSucceed(LoadPlan(), host) && Succeeds(host, ConvertPath) then Some(f[..DirectoryLength(f)]) else None,
      if !AllSucceed(ThroughStores(host), host) then []
      else if !AllSucceed(Prelude(host), host) then InitialStores(host)
      else BindStores(InitialStores(host), tables, |Run(ModulePlan(host, tables), host)|))
  }

  // ------------------------------------------------------- lemmas about Run

  lemma {:induction false} RunAllSucceed(plan: seq<Call>, host: Host)
    requires AllSucceed(plan, host)
    ensures Run(plan, host) == plan
  {
    if plan != [] {
      assert forall c :: c in plan[1..] ==> c in plan;
      RunAllSucceed(plan[1..], host);
    }
  }

  /** The first failing call ends the run: nothing after it is attempted. */
  lemma {:induction false} RunStopsAtFailure(plan: seq<Call>, host: Host, n: nat)
    requires n < |plan| && AllSucceed(plan[..n], host) && !Succeeds(host, plan[n])
    ensures Run(plan, host) == plan[..n + 1]
  {
    if n > 0 {
      assert Succeeds(host, plan[0]) by {
        assert plan[0] in plan[..n];
      }
      assert Run(plan[1..], host) == plan[1..][..n] by {
        assert plan[1..][..n - 1] == plan[1..n];
        assert forall c :: c in plan[1..n] ==> c in plan[..n];
        RunStopsAtFailure(plan[1..], host, n - 1);
      }
      assert plan[..n + 1] == [plan[0]] + plan[1..][..n];
    }
  }

  /** A plan's calls all succeed exactly when its first one and the rest do. */
  lemma AllSucceedCons(a: seq<Call>, host: Host)
    requires a != []
    ensures AllSucceed(a, host) <==> Succeeds(host, a[0]) && AllSucceed(a[1..], host)
  {
    assert forall c :: c in a[1..] ==> c in a;
    assert forall c :: c in a ==> c == a[0] || c in a[1..];
  }

  /** Running two plans one after the other. */
  lemma {:induction false} RunConcat(a: seq<Call>, b: seq<Call>, host: Host)
    ensures Run(a + b, host) == if AllSucceed(a, host) then a + Run(b, host) else Run(a, host)
  {
    if a == [] {
      assert a + b == b;
    } else {
      var ab := a + b;
      assert ab[0] == a[0] && ab[1..] == a[1..] + b;
      AllSucceedCons(a, host);
      if Succeeds(host, a[0]) {
        RunConcat(a[1..], b, host);
        assert Run(ab, host) == [a[0]] + Run(a[1..] + b, host);
        if AllSucceed(a[1..], host) {
          assert [a[0]] + (a[1..] + Run(b, host)) == a + Run(b, host);
        }
      }
    }
  }

  /** The run gets past call `n` exactly when every call before it succeeded. */
  lemma {:induction false} RunReaches(plan: seq<Call>, host: Host, n: nat)
    requires n < |plan|
    ensures |Run(plan, host)| > n <==> AllSucceed(plan[..n], host)
  {
    if n > 0 {
      assert plan[1..][..n - 1] == plan[1..n];
      assert forall c :: c in plan[..n] ==> c == plan[0] || c in plan[1..n];
      assert forall c :: c in plan[1..n] ==> c in plan[..n];
      assert plan[0] in plan[..n];
      RunReaches(plan[1..], host, n - 1);
    }
  }

  lemma AllSucceedConcat(a: seq<Call>, b: seq<Call>, host: Host)
    ensures AllSucceed(a + b, host) <==> AllSucceed(a, host) && AllSucceed(b, host)
  {
  }

  /** How a run over a plan that starts with `phase` unfolds. */
  lemma RunPhase(plan: seq<Call>, phase: seq<Call>, host: Host)
    requires phase <= plan
    ensures Run(plan, host) == if AllSucceed(phase, host) then phase + Run(plan[|phase|..], host) else Run(phase, host)
  {
    assert plan == phase + plan[|phase|..];
    RunConcat(phase, plan[|phase|..], host);
  }

  /** One more phase of a plan whose calls so far all succeeded. */
  lemma RunStep(plan: seq<Call>, done: seq<Call>, rest: seq<Call>, phase: seq<Call>, host: Host)
    requires plan == done + rest && Run(plan, host) == done + Run(rest, host) && AllSucceed(done, host)
    requires phase <= rest
    ensures AllSucceed(phase, host) ==>
              plan == (done + phase) + rest[|phase|..] && AllSucceed(done + phase, host) &&
              Run(plan, host) == (done + phase) + Run(rest[|phase|..], host)
    ensures !AllSucceed(phase, host) ==> Run(plan, host) == done + Run(phase, host) && !AllSucceed(plan, host)
  {
    var tail := rest[|phase|..];
    if AllSucceed(phase, host) {
      assert plan == (done + phase) + tail by {
        assert rest == phase + tail;
      }
      assert AllSucceed(done + phase, host) by {
        AllSucceedConcat(done, phase, host);
      }
      assert Run(plan, host) == (done + phase) + Run(tail, host) by {
        assert rest == phase + tail;
        RunConcat(phase, tail, host);
        assert done + (phase + Run(tail, host)) == (done + phase) + Run(tail, host);
      }
    } else {
      assert Run(plan, host) == done + Run(phase, host) by {
        assert rest == phase + tail;
        RunConcat(phase, tail, host);
      }
      var c :| c in phase && !Succeeds(host, c);
      assert c in plan by {
        assert rest == phase + tail;
        assert c in rest;
      }
    }
  }

  // ------------------------------------------ lemmas about LastSqliteResult

  lemma {:induction false} LastSqliteResultSkips(a: seq<Call>, b: seq<Call>, host: Host)
    requires NoSqliteCalls(b)
    ensures LastSqliteResult(a + b, host) == LastSqliteResult(a, host)
  {
    if b != [] {
      assert (a + b)[..|a + b| - 1] == a + b[..|b| - 1];
      assert b[|b| - 1] in b;
      assert forall c :: c in b[..|b| - 1] ==> c in b;
      LastSqliteResultSkips(a, b[..|b| - 1], host);
    } else {
      assert a + b == a;
    }
  }

  lemma LastSqliteResultOfLast(a: seq<Call>, b: seq<Call>, host: Host)
    requires b != [] && IsSqliteCall(b[|b| - 1])
    ensures LastSqliteResult(a + b, host) == Code(SqliteResult(host, b[|b| - 1]))
  {
    assert (a + b)[|a + b| - 1] == b[|b| - 1];
  }

  lemma NoSqliteCallsConcat(a: seq<Call>, b: seq<Call>)
    requires NoSqliteCalls(a) && NoSqliteCalls(b)
    ensures NoSqliteCalls(a + b)
  {
  }

  /** Nothing before the first module creation is a sqlite3 call. */
  lemma PreludeHasNoSqliteCalls(host: Host)
    ensures NoSqliteCalls(Prelude(host))
  {
    assert NoSqliteCalls(LoadPlan());
    assert NoSqliteCalls(PathPlan());
    assert NoSqliteCalls(ExportPlan());
    assert NoSqliteCalls(StringTablePlan());
    assert NoSqliteCalls(SizingPlan(host));
    assert NoSqliteCalls(PoolPlan(host));
    assert NoSqliteCalls(ContextPlan(host));
    NoSqliteCallsConcat(PoolPlan(host), ContextPlan(host));
    NoSqliteCallsConcat(SizingPlan(host), PoolPlan(host) + ContextPlan(host));
    NoSqliteCallsConcat(StringTablePlan(), SizingPlan(host) + (PoolPlan(host) + ContextPlan(host)));
    NoSqliteCallsConcat(ExportPlan(), StringTablePlan() + (SizingPlan(host) + (PoolPlan(host) + ContextPlan(host))));
    NoSqliteCallsConcat(PathPlan(), ExportPlan() + (StringTablePlan() + (SizingPlan(host) + (PoolPlan(host) + ContextPlan(host)))));
    NoSqliteCallsConcat(LoadPlan(), PathPlan() + (ExportPlan() + (StringTablePlan() + (SizingPlan(host) + (PoolPlan(host) + ContextPlan(host))))));
  }

  /** Calls that are not sqlite3 calls before a log do not change `Result`. */
  lemma {:induction false} LastSqliteResultAfterPrefix(a: seq<Call>, b: seq<Call>, host: Host)
    requires NoSqliteCalls(a)
    ensures LastSqliteResult(a + b, host) == LastSqliteResult(b, host)
  {
    if b == [] {
      assert a + b == a;
      LastSqliteResultSkips([], a, host);
      assert [] + a == a;
    } else {
      assert (a + b)[|a + b| - 1] == b[|b| - 1];
      assert (a + b)[..|a + b| - 1] == a + b[..|b| - 1];
      LastSqliteResultAfterPrefix(a, b[..|b| - 1], host);
    }
  }

  /** Every call of the registration phases is a sqlite3 call. */
  predicate AllSqlite(plan: seq<Call>) {
    forall k :: 0 <= k < |plan| ==> IsSqliteCall(plan[k])
  }

  lemma RegistrationIsSqlite(host: Host, tables: Tables)
    requires TablesCover(host, tables)
    ensures AllSqlite(ModulePlan(host, tables)) && AllSqlite(FunctionPlan(tables.functions))
  {
  }

  /** After a prefix of a phase of sqlite3 calls, `Result` is what the phase left. */
  lemma ResultOfSqlitePhase(done: seq<Call>, log: seq<Call>, plan: seq<Call>, host: Host)
    requires log <= plan && AllSqlite(plan)
    ensures LastSqliteResult(done + log, host) == ResultAfter(LastSqliteResult(done, host), host, log)
  {
    if log == [] {
      assert done + log == done;
    } else {
      assert log[|log| - 1] == plan[|log| - 1];
      LastSqliteResultOfLast(done, log, host);
    }
  }

  lemma BindOneMore(stores: seq<StoreSlot>, tables: Tables, n: nat)
    requires n < |stores| && n < |tables.columns| && n < |tables.schemas| && n < |tables.virtualTableNames|
    ensures BindStores(stores, tables, n)[n] == stores[n]
    ensures BindStores(stores, tables, n)[n := stores[n].(binding := Some(BindingAt(tables, n)))] ==
            BindStores(stores, tables, n + 1)
  {
  }

  // ------------------------------------------------------- the phases

  /** Makes one planned call. */
  method Invoke(host: Host, ghost plan: seq<Call>, log: seq<Call>, call: Call) returns (ok: bool, newLog: seq<Call>)
    requires |log| < |plan| && log == plan[..|log|] && plan[|log|] == call && AllSucceed(log, host)
    ensures ok == Succeeds(host, call)
    ensures newLog == log + [call] && newLog == plan[..|newLog|]
    ensures ok ==> AllSucceed(newLog, host)
    ensures !ok ==> newLog == Run(plan, host) && !AllSucceed(plan, host)
  {
    ok := Succeeds(host, call);
    newLog := log + [call];
    assert newLog == plan[..|newLog|];
    if !ok {
      RunStopsAtFailure(plan, host, |log|);
      assert call in plan;
    }
  }

  /** The outcome shape every phase of the prelude promises. */
  predicate PhaseDone(phase: seq<Call>, host: Host, ok: bool, log: seq<Call>) {
    log == Run(phase, host) && (ok <==> AllSucceed(phase, host)) && (ok ==> log == phase)
  }

  /** Lines 139-193. */
  method LoadModules(host: Host) returns (ok: bool, log: seq<Call>)
    ensures PhaseDone(LoadPlan(), host, ok, log)
  {
    ghost var plan := LoadPlan();
    log := [];
    ok, log := Invoke(host, plan, log, LoadLibrary(TracerHeap));
    if !ok { return; }
    ok, log := Invoke(host, plan, log, LoadLibrary(StringTable));
    if !ok { return; }
    ok, log := Invoke(host, plan, log, Resolve(TracerHeap, InitializeHeapAllocatorEx));
    if !ok { return; }
    ok, log := Invoke(host, plan, log, InitializeHeapAllocator);
    if !ok { return; }
    ok, log := Invoke(host, plan, log, GetModuleRtlPath);
    if !ok { return; }
    RunAllSucceed(plan, host);
  }

  /** Lines 199-231: derive the session directory from the database file
      name, convert it, and check the converted path's terminator. */
  method InitializeSessionDirectory(host: Host) returns (ok: bool, log: seq<Call>, directory: Option<seq<char>>)
    requires ScanDefined(host.databaseFilename)
    ensures PhaseDone(PathPlan(), host, ok, log)
    ensures directory == if Succeeds(host, ConvertPath)
                         then Some(host.databaseFilename[..DirectoryLength(host.databaseFilename)])
                         else None
  {
    ghost var plan := PathPlan();
    var filename := DeriveSessionDirectory(host.databaseFilename);
    log := [];
    directory := None;
    ok, log := Invoke(host, plan, log, ConvertPath);
    if !ok { return; }
    directory := Some(Text(filename));
    ok, log := Invoke(host, plan, log, CheckPathTerminated);
    if !ok { return; }
    RunAllSucceed(plan, host);
  }

  /** Lines 259-273. */
  method ResolveStringTableExports(host: Host) returns (ok: bool, log: seq<Call>)
    ensures PhaseDone(ExportPlan(), host, ok, log)
  {
    ghost var plan := ExportPlan();
    log := [];
    ok, log := Invoke(host, plan, log, Resolve(StringTable, InitializeStringTableAllocator));
    if !ok { return; }
    ok, log := Invoke(host, plan, log, Resolve(StringTable, CreateStringTable));
    if !ok { return; }
    ok, log := Invoke(host, plan, log, Resolve(StringTable, CreateStringTableFromDelimitedString));
    if !ok { return; }
    ok, log := Invoke(host, plan, log, Resolve(StringTable, CreateStringTableFromDelimitedEnvironmentVariable));
    if !ok { return; }
    RunAllSucceed(plan, host);
  }

  /** Lines 314-344. SetCSpecificHandler and SetAtExitEx (lines 276-308) are
      optional exports whose absence is not an error; they are not modelled. */
  method CreateStringTables(host: Host) returns (ok: bool, log: seq<Call>)
    ensures PhaseDone(StringTablePlan(), host, ok, log)
  {
    ghost var plan := StringTablePlan();
    log := [];
    ok, log := Invoke(host, plan, log, InitializeStringAllocator(StringTableAllocator));
    if !ok { return; }
    ok, log := Invoke(host, plan, log, InitializeStringAllocator(StringArrayAllocator));
    if !ok { return; }
    ok, log := Invoke(host, plan, log, CreateFunctionStringTable);
    if !ok { return; }
    RunAllSucceed(plan, host);
  }

  /** Lines 350-418: the two-phase sizing of the session and the stores. */
  method AllocateSessionAndStores(host: Host) returns (ok: bool, log: seq<Call>, stores: seq<StoreSlot>)
    ensures PhaseDone(SizingPlan(host), host, ok, log)
    ensures stores == if ok then InitialStores(host) else []
  {
    ghost var plan := SizingPlan(host);
    log := [];
    stores := [];
    // The first InitializeTraceSession call, with a NULL destination, only reports the size.
    var requiredSize := host.sessionSize;
    ok, log := Invoke(host, plan, log, Calloc(TraceSession, requiredSize));
    if !ok { return; }
    ok, log := Invoke(host, plan, log, Initialize(TraceSession, requiredSize));
    if !ok { return; }
    requiredSize := host.storesSize;
    requiredSize := AlignUp(requiredSize, host.largePageMinimum);
    ok, log := Invoke(host, plan, log, LargePageAlloc(requiredSize));
    if !ok { return; }
    ok, log := Invoke(host, plan, log, Initialize(TraceStores, requiredSize));
    if !ok { return; }
    stores := InitialStores(host);
    RunAllSucceed(plan, host);
  }

  /** Lines 425-464. */
  method CreateThreadpools(host: Host) returns (ok: bool, log: seq<Call>)
    ensures PhaseDone(PoolPlan(host), host, ok, log)
  {
    ghost var plan := PoolPlan(host);
    var maximumProcessorCount := host.maximumProcessorCount;
    log := [];
    ok, log := Invoke(host, plan, log, CreateThreadpool(General));
    if !ok { return; }
    var maximumThreads := ToUint32(maximumProcessorCount as int * 2);
    ok, log := Invoke(host, plan, log, SetThreadBounds(General, maximumProcessorCount, maximumThreads));
    assert ok;
    ok, log := Invoke(host, plan, log, CreateThreadpool(Cancellation));
    if !ok { return; }
    ok, log := Invoke(host, plan, log, SetThreadBounds(Cancellation, 1, 1));
    assert ok;
    assert log == plan;
    RunAllSucceed(plan, host);
  }

  /** Lines 470-525: size, allocate and initialize the context; its
      loading-complete event is captured once that succeeded. */
  method InitializeContext(host: Host) returns (ok: bool, log: seq<Call>, loadingCompleteEvent: bool)
    ensures PhaseDone(ContextPlan(host), host, ok, log)
    ensures loadingCompleteEvent == ok
  {
    ghost var plan := ContextPlan(host);
    log := [];
    loadingCompleteEvent := false;
    var requiredSize := host.contextSize;
    ok, log := Invoke(host, plan, log, Calloc(TraceContext, requiredSize));
    if !ok { return; }
    ok, log := Invoke(host, plan, log, Initialize(TraceContext, requiredSize));
    if !ok { return; }
    loadingCompleteEvent := true;
    // Attempt to load nvcuda; a failure is ignored.
    ok, log := Invoke(host, plan, log, GetCu);
    RunAllSucceed(plan, host);
  }

  /** Lines 139-525: every phase before the first sqlite3 call, each ending
      the load at its first failure. */
  method RunPrelude(host: Host)
    returns (ok: bool, log: seq<Call>, directory: Option<seq<char>>, stores: seq<StoreSlot>, loadingCompleteEvent: bool)
    requires AllSucceed(LoadPlan(), host) ==> ScanDefined(host.databaseFilename)
    ensures log == Run(Prelude(host), host)
    ensures ok <==> AllSucceed(Prelude(host), host)
    ensures directory == if AllSucceed(LoadPlan(), host) && Succeeds(host, ConvertPath)
                         then Some(host.databaseFilename[..DirectoryLength(host.databaseFilename)])
                         else None
    ensures stores == if AllSucceed(ThroughStores(host), host) then InitialStores(host) else []
    ensures loadingCompleteEvent == ok
  {
    ghost var plan := Prelude(host);
    directory, stores, loadingCompleteEvent := None, [], false;
    log := [];
    ghost var rest := plan;
    var phaseLog;

    ok, phaseLog := LoadModules(host);
    RunStep(plan, log, rest, LoadPlan(), host);
    log := log + phaseLog;
    if !ok { return; }
    rest := rest[|LoadPlan()|..];

    ok, phaseLog, directory := InitializeSessionDirectory(host);
    RunStep(plan, log, rest, PathPlan(), host);
    log := log + phaseLog;
    if !ok { return; }
    rest := rest[|PathPlan()|..];

    ok, phaseLog := ResolveStringTableExports(host);
    RunStep(plan, log, rest, ExportPlan(), host);
    log := log + phaseLog;
    if !ok { return; }
    rest := rest[|ExportPlan()|..];

    ok, phaseLog := CreateStringTables(host);
    RunStep(plan, log, rest, StringTablePlan(), host);
    log := log + phaseLog;
    if !ok { return; }
    rest := rest[|StringTablePlan()|..];

    ok, phaseLog, stores := AllocateSessionAndStores(host);
    RunStep(plan, log, rest, SizingPlan(host), host);
    log := log + phaseLog;
    if !ok { return; }
    rest := rest[|SizingPlan(host)|..];

    ok, phaseLog := CreateThreadpools(host);
    RunStep(plan, log, rest, PoolPlan(host), host);
    log := log + phaseLog;
    if !ok { return; }
    rest := rest[|PoolPlan(host)|..];

    ok, phaseLog, loadingCompleteEvent := InitializeContext(host);
    RunStep(plan, log, rest, ContextPlan(host), host);
    log := log + phaseLog;
  }

  /** Makes one planned sqlite3 call; `code` is what it returns. */
  method InvokeSqlite(host: Host, ghost plan: seq<Call>, log: seq<Call>, call: Call) returns (code: int, newLog: seq<Call>)
    requires IsSqliteCall(call)
    requires |log| < |plan| && log == plan[..|log|] && plan[|log|] == call && AllSucceed(log, host)
    ensures code == SqliteResult(host, call)
    ensures newLog == log + [call] && newLog == plan[..|newLog|]
    ensures code == SQLITE_OK ==> AllSucceed(newLog, host)
    ensures code != SQLITE_OK ==> newLog == Run(plan, host) && !AllSucceed(plan, host)
  {
    var ok;
    ok, newLog := Invoke(host, plan, log, call);
    code := SqliteResult(host, call);
  }

  lemma ModulePlanAt(host: Host, tables: Tables, i: nat)
    requires TablesCover(host, tables) && i < TotalStores(host)
    ensures ModulePlan(host, tables)[i] == CreateModule(i, tables.virtualTableNames[i])
  {
  }

  lemma FunctionPlanAt(functions: seq<SqlFunction>, j: nat)
    requires j < |functions|
    ensures |FunctionPlan(functions)| == 2 * |functions|
    ensures FunctionPlan(functions)[2 * j] == OverloadFunction(j, functions[j].name, functions[j].numberOfArguments)
    ensures FunctionPlan(functions)[2 * j + 1] == CreateFunction(j, functions[j].name, functions[j].numberOfArguments)
  {
    assert (2 * j) / 2 == j && (2 * j) % 2 == 0;
    assert (2 * j + 1) / 2 == j && (2 * j + 1) % 2 == 1;
  }

  /** Lines 551-568: store `index` receives the Db, its columns, schema and
      virtual-table name from the tables at the same index; an info store
      whose schema is not the info schema only breaks into the debugger. */
  method BindStore(stores: seq<StoreSlot>, tables: Tables, index: nat,
                   bound: seq<StoreSlot>, mismatches: seq<nat>)
    returns (newBound: seq<StoreSlot>, newMismatches: seq<nat>)
    requires index < |stores| && index < |tables.columns| && index < |tables.schemas| &&
             index < |tables.virtualTableNames|
    requires bound == BindStores(stores, tables, index)
    requires mismatches == SchemaMismatches(stores, tables, index)
    ensures newBound == BindStores(stores, tables, index + 1)
    ensures newMismatches == SchemaMismatches(stores, tables, index + 1)
  {
    var store := bound[index];
    BindOneMore(stores, tables, index);
    newBound := bound[index := store.(binding := Some(BindingAt(tables, index)))];
    newMismatches := mismatches;
    if store.metadataId == tables.metadataInfoId && tables.schemas[index] != tables.infoSchema {
      // __debugbreak(), and the load goes on.
      newMismatches := newMismatches + [index];
    }
  }

  /** Lines 551-578, one store: bind it, then create its module. */
  method CreateStoreModule(host: Host, tables: Tables, stores: seq<StoreSlot>, index: nat,
                           log: seq<Call>, bound: seq<StoreSlot>, mismatches: seq<nat>)
    returns (code: int, newLog: seq<Call>, newBound: seq<StoreSlot>, newMismatches: seq<nat>)
    requires TablesCover(host, tables) && |stores| == |host.storeMetadataIds| && index < TotalStores(host)
    requires log == ModulePlan(host, tables)[..index] && AllSucceed(log, host)
    requires bound == BindStores(stores, tables, index)
    requires mismatches == SchemaMismatches(stores, tables, index)
    ensures newLog == ModulePlan(host, tables)[..index + 1]
    ensures newBound == BindStores(stores, tables, index + 1)
    ensures newMismatches == SchemaMismatches(stores, tables, index + 1)
    ensures code == SqliteResult(host, CreateModule(index, tables.virtualTableNames[index]))
    ensures code == SQLITE_OK ==> AllSucceed(newLog, host)
    ensures code != SQLITE_OK ==> newLog == Run(ModulePlan(host, tables), host) &&
                                  !AllSucceed(ModulePlan(host, tables), host)
  {
    newBound, newMismatches := BindStore(stores, tables, index, bound, mismatches);
    ModulePlanAt(host, tables, index);
    code, newLog := InvokeSqlite(host, ModulePlan(host, tables), log, CreateModule(index, tables.virtualTableNames[index]));
  }

  /** Lines 540-579: bind every store to the tables at its index, then
      create its module; the first failing CreateModule aborts. */
  method RegisterStores(host: Host, tables: Tables, stores: seq<StoreSlot>, result0: ReturnCode)
    returns (ok: bool, log: seq<Call>, newStores: seq<StoreSlot>, result: ReturnCode, mismatches: seq<nat>)
    requires TablesCover(host, tables) && |stores| == |host.storeMetadataIds|
    ensures log == Run(ModulePlan(host, tables), host)
    ensures ok <==> AllSucceed(ModulePlan(host, tables), host)
    ensures newStores == BindStores(stores, tables, |log|)
    ensures result == ResultAfter(result0, host, log)
    ensures mismatches == SchemaMismatches(stores, tables, |log|)
  {
    ghost var plan := ModulePlan(host, tables);
    var total := TotalStores(host);
    log := [];
    newStores := stores;
    result := result0;
    mismatches := [];
    var index := 0;
    while index < total
      invariant 0 <= index <= total && |log| == index
      invariant log == plan[..index] && AllSucceed(log, host)
      invariant newStores == BindStores(stores, tables, index)
      invariant mismatches == SchemaMismatches(stores, tables, index)
      invariant result == ResultAfter(result0, host, log)
    {
      var code;
      code, log, newStores, mismatches := CreateStoreModule(host, tables, stores, index, log, newStores, mismatches);
      result := Code(code);
      if code != SQLITE_OK {
        ok := false;
        return;
      }
      index := index + 1;
    }
    ok := true;
    RunAllSucceed(plan, host);
  }

  /** Lines 587-608, one function: overload it, then create it; either
      call failing ends the registration. */
  method RegisterFunction(host: Host, functions: seq<SqlFunction>, index: nat, log: seq<Call>)
    returns (code: int, newLog: seq<Call>)
    requires index < |functions|
    requires log == FunctionPlan(functions)[..2 * index] && AllSucceed(log, host)
    ensures |newLog| == 2 * index + 1 || |newLog| == 2 * index + 2
    ensures newLog == FunctionPlan(functions)[..|newLog|]
    ensures code == SqliteResult(host, newLog[|newLog| - 1])
    ensures code == SQLITE_OK ==> |newLog| == 2 * index + 2 && AllSucceed(newLog, host)
    ensures code != SQLITE_OK ==> newLog == Run(FunctionPlan(functions), host) &&
                                  !AllSucceed(FunctionPlan(functions), host)
  {
    var entry := functions[index];
    FunctionPlanAt(functions, index);
    code, newLog := InvokeSqlite(host, FunctionPlan(functions), log, OverloadFunction(index, entry.name, entry.numberOfArguments));
    if code != SQLITE_OK {
      return;
    }
    code, newLog := InvokeSqlite(host, FunctionPlan(functions), newLog, CreateFunction(index, entry.name, entry.numberOfArguments));
  }

  /** Lines 585-610: a function is registered by an overload and a creation
      that must both return SQLITE_OK; the first failure aborts. */
  method RegisterFunctions(host: Host, functions: seq<SqlFunction>, result0: ReturnCode)
    returns (ok: bool, log: seq<Call>, result: ReturnCode)
    ensures log == Run(FunctionPlan(functions), host)
    ensures ok <==> AllSucceed(FunctionPlan(functions), host)
    ensures result == ResultAfter(result0, host, log)
  {
    ghost var plan := FunctionPlan(functions);
    log := [];
    result := result0;
    var index := 0;
    while index < |functions|
      invariant 0 <= index <= |functions| && |log| == 2 * index && |plan| == 2 * |functions|
      invariant log == plan[..2 * index] && AllSucceed(log, host)
      invariant result == ResultAfter(result0, host, log)
    {
      var code;
      code, log := RegisterFunction(host, functions, index, log);
      result := Code(code);
      if code != SQLITE_OK {
        ok := false;
        return;
      }
      index := index + 1;
    }
    ok := true;
    RunAllSucceed(plan, host);
  }

  /** The outcome of a load that got as far as allocating its Db structure. */
  predicate LoadOutcome(host: Host, tables: Tables, result: ReturnCode, db: Option<DbState>, log: seq<Call>, waited: bool)
    requires TablesCover(host, tables)
    requires AllSucceed(LoadPlan(), host) ==> ScanDefined(host.databaseFilename)
  {
    log == Run(Plan(host, tables), host) && db == Some(ExpectedDb(host, tables)) &&
    if AllSucceed(Plan(host, tables), host) then result == Code(SQLITE_OK_LOAD_PERMANENTLY) && !waited
    else result == LastSqliteResult(log, host) && (waited <==> AllSucceed(Prelude(host), host))
  }

  /** The store indexes at which a load breaks into the debugger over an
      info store's schema: none before the module loop, then the mismatches
      among the stores the loop reached. */
  function ExpectedBreaks(host: Host, tables: Tables): seq<nat>
    requires TablesCover(host, tables)
  {
    if AllSucceed(Prelude(host), host)
    then SchemaMismatches(InitialStores(host), tables, |Run(ModulePlan(host, tables), host)|)
    else []
  }

  /** Lines 540-610: create the modules, then register the functions. */
  method Register(host: Host, tables: Tables, stores: seq<StoreSlot>)
    returns (ok: bool, log: seq<Call>, newStores: seq<StoreSlot>, result: ReturnCode, mismatches: seq<nat>)
    requires TablesCover(host, tables) && |stores| == |host.storeMetadataIds|
    ensures log == Run(Registration(host, tables), host)
    ensures ok <==> AllSucceed(Registration(host, tables), host)
    ensures newStores == BindStores(stores, tables, |Run(ModulePlan(host, tables), host)|)
    ensures result == LastSqliteResult(log, host)
    ensures mismatches == SchemaMismatches(stores, tables, |Run(ModulePlan(host, tables), host)|)
  {
    RegistrationIsSqlite(host, tables);
    ok, log, newStores, result, mismatches := RegisterStores(host, tables, stores, Unspecified);
    RunConcat(ModulePlan(host, tables), FunctionPlan(tables.functions), host);
    AllSucceedConcat(ModulePlan(host, tables), FunctionPlan(tables.functions), host);
    ResultOfSqlitePhase([], log, ModulePlan(host, tables), host);
    assert [] + log == log;
    if !ok { return; }
    RunAllSucceed(ModulePlan(host, tables), host);
    var functionLog;
    ok, functionLog, result := RegisterFunctions(host, tables.functions, result);
    ResultOfSqlitePhase(log, functionLog, FunctionPlan(tables.functions), host);
    log := log + functionLog;
  }

  /** Lines 125-646: with the Db structure allocated, run every phase; the
      first failure jumps to the error exit, which waits on the
      loading-complete event if the context got one. `breaks` lists the
      stores whose schema check broke into the debugger. */
  method LoadSession(host: Host, tables: Tables)
    returns (result: ReturnCode, db: Option<DbState>, log: seq<Call>, waited: bool, breaks: seq<nat>)
    requires TablesCover(host, tables)
    requires AllSucceed(LoadPlan(), host) ==> ScanDefined(host.databaseFilename)
    ensures LoadOutcome(host, tables, result, db, log, waited)
    ensures breaks == ExpectedBreaks(host, tables)
  {
    result, waited, breaks := Unspecified, false, [];
    var ok, directory, stores, loadingCompleteEvent;
    label Error: {
      ok, log, directory, stores, loadingCompleteEvent := RunPrelude(host);
      RunConcat(Prelude(host), Registration(host, tables), host);
      AllSucceedConcat(Prelude(host), Registration(host, tables), host);
      PreludeHasNoSqliteCalls(host);
      LastSqliteResultSkips([], log, host);
      assert [] + log == log;
      if !ok { break Error; }

      RunAllSucceed(Prelude(host), host);
      var registrationLog;
      ok, registrationLog, stores, result, breaks := Register(host, tables, stores);
      LastSqliteResultAfterPrefix(log, registrationLog, host);
      log := log + registrationLog;
      if !ok { break Error; }

      result := Code(SQLITE_OK_LOAD_PERMANENTLY);
      db := Some(DbState(directory, stores));
      return;
    }
    db := Some(DbState(directory, stores));
    if loadingCompleteEvent {
      // WaitForSingleObject; on success the routine would go on to destroy
      // the session, a step the routine has commented out, so the wait's
      // result changes nothing.
      waited := true;
    }
  }

  /** Lines 92-123: validate the six pointer arguments and allocate the Db
      structure, then load. */
  method TraceStoreSqlite3ExtInit(args: Arguments, host: Host, tables: Tables)
    returns (result: ReturnCode, db: Option<DbState>, log: seq<Call>, waited: bool, breaks: seq<nat>)
    requires ArgumentsPresent(args) && host.mallocDb ==> TablesCover(host, tables)
    requires ArgumentsPresent(args) && host.mallocDb && AllSucceed(LoadPlan(), host) ==>
             ScanDefined(host.databaseFilename)
    ensures !ArgumentsPresent(args) ==>
              result == Code(SQLITE_ERROR) && db == None && log == [] && !waited && breaks == []
    ensures ArgumentsPresent(args) && !host.mallocDb ==>
              result == Code(SQLITE_NOMEM) && db == None && log == [] && !waited && breaks == []
    ensures ArgumentsPresent(args) && host.mallocDb ==>
              LoadOutcome(host, tables, result, db, log, waited) && breaks == ExpectedBreaks(host, tables)
  {
    result, db, log, waited, breaks := Code(SQLITE_ERROR), None, [], false, [];
    if !args.rtl { return; }
    if !args.sqlite3Allocator { return; }
    if !args.tracerConfig { return; }
    if !args.sqlite3Db { return; }
    if !args.errorMessagePointer { return; }
    if !args.sqlite3 { return; }

    if !host.mallocDb {
      result := Code(SQLITE_NOMEM);
      return;
    }
    result, db, log, waited, breaks := LoadSession(host, tables);
  }
}
