/** What the extension entry point promises, stated over the plan the load
    follows: which stores end up bound, which functions get registered,
    what `Result` holds on the error exit, the rounding of the stores
    allocation and the thread-pool bounds. */
module TraceStoreSqlite3ExtInitProperties {
  import opened WinTypes
  import opened SessionDirectory
  import opened TraceStoreSqlite3ExtInit

  // ---------------------------------------------------------- ALIGN_UP

  /** With a power-of-two alignment and no 32-bit wrap-around, the stores
      allocation is the queried size rounded up by less than one alignment. */
  lemma AlignUpRoundsUp(size: bv32, k: nat)
    requires k < 32
    requires size <= size + (((1 as bv32) << k) - 1)
    ensures var a := (1 as bv32) << k; var r := AlignUp(size, a);
      size <= r && r - size < a
  {
  }

  /** The rounded size is a multiple of the (power-of-two) alignment. */
  lemma AlignUpIsMultiple(size: bv32, k: nat)
    requires k < 32
    ensures var r := AlignUp(size, (1 as bv32) << k);
      (r >> k) << k == r
  {
  }

  // ---------------------------------------------------------- store count

  /** The module loop's bound is the product of the store count and the
      elements per store, truncated to a USHORT: congruent to the product
      modulo 2^16, the product itself when it fits, and smaller otherwise. */
  lemma TotalStoresTruncates(host: Host)
    ensures var product := host.numberOfTraceStores as int * host.elementsPerTraceStore as int;
      (TotalStores(host) - product) % TWO_16 == 0 &&
      (product < TWO_16 ==> TotalStores(host) == product) &&
      (product >= TWO_16 ==> TotalStores(host) < product)
  {
  }

  /** 256 stores of 256 elements wrap to a count of zero: no module is
      created and the load goes straight on to the functions. */
  lemma TotalStoresWrapScenario(host: Host, tables: Tables)
    requires host.numberOfTraceStores == 256 && host.elementsPerTraceStore == 256
    ensures TablesCover(host, tables)
    ensures TotalStores(host) == 0 && ModulePlan(host, tables) == []
  {
    assert host.numberOfTraceStores as int * host.elementsPerTraceStore as int == TWO_16;
  }

  // ---------------------------------------------------------- thread pools

  /** The general pool runs between P and 2P threads, P the processor count,
      as long as 2P fits in 32 bits; the cancellation pool runs exactly one. */
  lemma ThreadpoolBounds(host: Host)
    requires host.maximumProcessorCount < TWO_31
    ensures var p := host.maximumProcessorCount;
      PoolPlan(host)[1] == SetThreadBounds(General, p, p * 2) &&
      PoolPlan(host)[1].minimum <= PoolPlan(host)[1].maximum &&
      PoolPlan(host)[3] == SetThreadBounds(Cancellation, 1, 1)
  {
  }

  // ---------------------------------------------------------- runs

  /** A run that does not cover its plan without failure ends on a failing
      call, and every call before that one succeeded. */
  lemma {:induction false} RunFailure(plan: seq<Call>, host: Host)
    requires !AllSucceed(plan, host)
    ensures var log := Run(plan, host);
      log != [] && !Succeeds(host, log[|log| - 1]) && AllSucceed(log[..|log| - 1], host)
  {
    if Succeeds(host, plan[0]) {
      assert !AllSucceed(plan[1..], host) by {
        var c :| c in plan && !Succeeds(host, c);
        assert c != plan[0];
        assert c in plan[1..];
      }
      RunFailure(plan[1..], host);
      var rest := Run(plan[1..], host);
      assert Run(plan, host) == [plan[0]] + rest;
      assert ([plan[0]] + rest)[..|rest|] == [plan[0]] + rest[..|rest| - 1];
    } else {
      assert Run(plan, host) == [plan[0]];
    }
  }

  // ---------------------------------------------------------- modules

  /** CreateModule for store `j` returned SQLITE_OK. */
  predicate ModuleCreated(host: Host, tables: Tables, j: nat)
    requires j < |tables.virtualTableNames|
  {
    SqliteResult(host, CreateModule(j, tables.virtualTableNames[j])) == SQLITE_OK
  }

  /** The module loop reaches store `i` exactly when every module before it
      was created. */
  lemma ModulesReached(host: Host, tables: Tables, i: nat)
    requires TablesCover(host, tables) && i < TotalStores(host)
    ensures i < |Run(ModulePlan(host, tables), host)| <==>
            forall j :: 0 <= j < i ==> ModuleCreated(host, tables, j)
  {
    var plan := ModulePlan(host, tables);
    RunReaches(plan, host, i);
    forall j | 0 <= j < i
      ensures plan[..i][j] == CreateModule(j, tables.virtualTableNames[j])
    {
      ModulePlanAt(host, tables, j);
    }
    if forall j :: 0 <= j < i ==> ModuleCreated(host, tables, j) {
      forall c | c in plan[..i]
        ensures Succeeds(host, c)
      {
        var j :| 0 <= j < i && plan[..i][j] == c;
        assert ModuleCreated(host, tables, j);
      }
    } else {
      var j :| 0 <= j < i && !ModuleCreated(host, tables, j);
      assert plan[..i][j] in plan[..i];
    }
  }

  /** Once the calls before the first module succeed, store `i` keeps its
      metadata id, and is bound to the tables at its index exactly when it
      is a counted store and every module before it was created: a store is
      bound before its own module is attempted. */
  lemma StoreBound(host: Host, tables: Tables, i: nat)
    requires TablesCover(host, tables)
    requires AllSucceed(LoadPlan(), host) ==> ScanDefined(host.databaseFilename)
    requires AllSucceed(Prelude(host), host)
    requires i < |host.storeMetadataIds|
    ensures var stores := ExpectedDb(host, tables).stores;
      |stores| == |host.storeMetadataIds| && stores[i].metadataId == host.storeMetadataIds[i] &&
      stores[i].binding ==
        if i < TotalStores(host) && forall j :: 0 <= j < i ==> ModuleCreated(host, tables, j)
        then Some(BindingAt(tables, i))
        else None
  {
    AllSucceedConcat(LoadPlan(), PathPlan() + (ExportPlan() + (StringTablePlan() + SizingPlan(host))), host);
    assert AllSucceed(ThroughStores(host), host) by {
      forall c | c in ThroughStores(host)
        ensures c in Prelude(host)
      {
      }
    }
    if i < TotalStores(host) {
      ModulesReached(host, tables, i);
    }
  }

  // ---------------------------------------------------------- functions

  /** Both registration calls for table entry `j` returned SQLITE_OK. */
  predicate FunctionRegistered(host: Host, functions: seq<SqlFunction>, j: nat)
    requires j < |functions|
  {
    var f := functions[j];
    SqliteResult(host, OverloadFunction(j, f.name, f.numberOfArguments)) == SQLITE_OK &&
    SqliteResult(host, CreateFunction(j, f.name, f.numberOfArguments)) == SQLITE_OK
  }

  /** A plan's calls all succeed when each of its positions does. */
  lemma AllSucceedByIndex(calls: seq<Call>, host: Host)
    ensures AllSucceed(calls, host) <==> forall m :: 0 <= m < |calls| ==> Succeeds(host, calls[m])
  {
    if forall m :: 0 <= m < |calls| ==> Succeeds(host, calls[m]) {
      forall c | c in calls
        ensures Succeeds(host, c)
      {
        var m :| 0 <= m < |calls| && calls[m] == c;
      }
    }
  }

  /** The first `2k` planned calls all succeed exactly when the first `k`
      functions were registered. */
  lemma FunctionPrefixSucceeds(host: Host, functions: seq<SqlFunction>, k: nat)
    requires k <= |functions|
    ensures AllSucceed(FunctionPlan(functions)[..2 * k], host) <==>
            forall j :: 0 <= j < k ==> FunctionRegistered(host, functions, j)
  {
    var prefix := FunctionPlan(functions)[..2 * k];
    AllSucceedByIndex(prefix, host);
    if forall j :: 0 <= j < k ==> FunctionRegistered(host, functions, j) {
      forall m | 0 <= m < 2 * k
        ensures Succeeds(host, prefix[m])
      {
        FunctionPlanAt(functions, m / 2);
        assert FunctionRegistered(host, functions, m / 2);
      }
    } else {
      var j :| 0 <= j < k && !FunctionRegistered(host, functions, j);
      FunctionPlanAt(functions, j);
      assert !Succeeds(host, prefix[2 * j]) || !Succeeds(host, prefix[2 * j + 1]);
    }
  }

  /** Function `k` is attempted exactly when every function before it was
      registered by both calls. */
  lemma FunctionsReached(host: Host, functions: seq<SqlFunction>, k: nat)
    requires k < |functions|
    ensures 2 * k < |Run(FunctionPlan(functions), host)| <==>
            forall j :: 0 <= j < k ==> FunctionRegistered(host, functions, j)
  {
    FunctionPlanAt(functions, k);
    RunReaches(FunctionPlan(functions), host, 2 * k);
    FunctionPrefixSucceeds(host, functions, k);
  }

  // ---------------------------------------------------------- the result

  /** On the error exit `Result` was never assigned when the failing call is
      one of the Windows or library calls before the first module; otherwise
      it is the failing sqlite3 call's own code, which is not SQLITE_OK. */
  lemma FailureResult(host: Host, tables: Tables)
    requires TablesCover(host, tables)
    requires !AllSucceed(Plan(host, tables), host)
    ensures var result := LastSqliteResult(Run(Plan(host, tables), host), host);
      (result == Unspecified <==> !AllSucceed(Prelude(host), host)) &&
      (AllSucceed(Prelude(host), host) ==> result.Code? && result.code != SQLITE_OK)
  {
    var prelude, registration := Prelude(host), Registration(host, tables);
    RunConcat(prelude, registration, host);
    AllSucceedConcat(prelude, registration, host);
    PreludeHasNoSqliteCalls(host);
    if !AllSucceed(prelude, host) {
      var log := Run(prelude, host);
      assert forall c :: c in log ==> c in prelude;
      LastSqliteResultSkips([], log, host);
      assert [] + log == log;
    } else {
      var log := Run(registration, host);
      RunFailure(registration, host);
      RegistrationIsSqlite(host, tables);
      AllSucceedConcat(ModulePlan(host, tables), FunctionPlan(tables.functions), host);
      assert AllSqlite(registration) by {
        forall k | 0 <= k < |registration|
          ensures IsSqliteCall(registration[k])
        {
          if k >= |ModulePlan(host, tables)| {
            assert registration[k] == FunctionPlan(tables.functions)[k - |ModulePlan(host, tables)|];
          }
        }
      }
      assert log[|log| - 1] == registration[|log| - 1];
      LastSqliteResultOfLast(prelude, log, host);
    }
  }

  /** A load that got its Db structure either succeeds, returning
      SQLITE_OK_LOAD_PERMANENTLY without waiting, or fails with the code of
      the failing sqlite3 call (or no code at all before the first module),
      and waits on the loading-complete event exactly when the context was
      initialized. */
  lemma LoadOutcomeShape(host: Host, tables: Tables, result: ReturnCode, db: Option<DbState>,
                         log: seq<Call>, waited: bool)
    requires TablesCover(host, tables)
    requires AllSucceed(LoadPlan(), host) ==> ScanDefined(host.databaseFilename)
    requires LoadOutcome(host, tables, result, db, log, waited)
    ensures AllSucceed(Plan(host, tables), host) ==>
              result == Code(SQLITE_OK_LOAD_PERMANENTLY) && log == Plan(host, tables) && !waited
    ensures !AllSucceed(Plan(host, tables), host) ==>
              log != [] && !Succeeds(host, log[|log| - 1]) && AllSucceed(log[..|log| - 1], host) &&
              (result == Unspecified <==> !waited) &&
              (waited ==> result.Code? && result.code != SQLITE_OK)
  {
    var plan := Plan(host, tables);
    if AllSucceed(plan, host) {
      RunAllSucceed(plan, host);
    } else {
      RunFailure(plan, host);
      FailureResult(host, tables);
    }
  }

  // ---------------------------------------------------------- schemas

  /** An info store whose schema is not the info schema is reported, and
      nothing else is: a mismatch never ends the load. */
  lemma {:induction false} SchemaMismatchesIff(stores: seq<StoreSlot>, tables: Tables, n: nat, i: nat)
    requires n <= |stores| && n <= |tables.schemas|
    ensures i in SchemaMismatches(stores, tables, n) <==>
            i < n && stores[i].metadataId == tables.metadataInfoId && tables.schemas[i] != tables.infoSchema
  {
    if n > 0 {
      SchemaMismatchesIff(stores, tables, n - 1, i);
    }
  }

  /** A load breaks into the debugger at store `i` exactly when the calls
      before the first module succeeded, the module loop reached store `i`,
      and store `i` is the info store with a schema other than the info
      schema. */
  lemma LoadBreaksIff(host: Host, tables: Tables, i: nat)
    requires TablesCover(host, tables)
    ensures i in ExpectedBreaks(host, tables) <==>
            AllSucceed(Prelude(host), host) && i < TotalStores(host) &&
            (forall j :: 0 <= j < i ==> ModuleCreated(host, tables, j)) &&
            host.storeMetadataIds[i] == tables.metadataInfoId && tables.schemas[i] != tables.infoSchema
  {
    if AllSucceed(Prelude(host), host) {
      var n := |Run(ModulePlan(host, tables), host)|;
      SchemaMismatchesIff(InitialStores(host), tables, n, i);
      if i < TotalStores(host) {
        ModulesReached(host, tables, i);
      }
    }
  }

  // ---------------------------------------------------------- directory

  /** For a database that lives directly in a session directory, the load
      records that directory once the path conversion succeeded. */
  lemma SessionDirectoryOfDatabase(host: Host, tables: Tables, directory: CString, name: CString)
    requires TablesCover(host, tables)
    requires forall i :: 0 <= i < |name| ==> name[i] != '\\'
    requires |directory| + 1 + |name| < TWO_16
    requires host.databaseFilename == directory + ['\\'] + name
    ensures ScanDefined(host.databaseFilename)
    ensures ExpectedDb(host, tables).sessionDirectory ==
            if AllSucceed(LoadPlan(), host) && Succeeds(host, ConvertPath) then Some(directory) else None
  {
    DirectoryOfJoinedPath(directory, name);
  }
}
