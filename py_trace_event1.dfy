/** PyTraceEvent1: capture one Python trace event into the event store, with
    the one-record-lag backpatch of the previous record's elapsed time and
    resource-counter deltas.

    The OS and interpreter calls the capture makes (process memory, I/O and
    handle counters, the performance counter, the current thread id, the
    frame's line number) and the outcomes of the record copies and of the
    store allocation are the fields of an `Environment`: one value per call. */
module PyTraceEvent {
  import opened WinTypes
  import opened PythonTraceEvent

  /** The counter categories of PYTHON_TRACE_CONTEXT_FLAGS. */
  datatype TraceFlags = TraceFlags(traceMemory: bool, traceIoCounters: bool, traceHandleCount: bool)

  /** The parts of PYTHON_TRACE_CONTEXT a capture reads. */
  datatype PythonTraceContext = PythonTraceContext(flags: TraceFlags, depth: int, eventStore: TraceStore)

  /** PROCESS_MEMORY_COUNTERS_EX, the fields read. */
  datatype MemoryCounters = MemoryCounters(workingSetSize: uint64, pageFaultCount: uint32, privateUsage: uint64)

  /** IO_COUNTERS, the fields read. */
  datatype IoCounters = IoCounters(readTransferCount: uint64, writeTransferCount: uint64)

  /** The answers of the calls one capture makes. A sample is `None` when its call fails. */
  datatype Environment = Environment(
    memoryInfo: Option<MemoryCounters>,  // K32GetProcessMemoryInfo
    ioCounters: Option<IoCounters>,      // GetProcessIoCounters
    handleCount: Option<uint32>,         // GetProcessHandleCount
    elapsed: int64,                      // TraceContextQueryPerformanceCounter, elapsed ticks
    threadId: uint32,                    // FastGetCurrentThreadId
    frameLineNumber: int,                // PyFrame_GetLineNumber
    copyOut: bool,                       // CopyPythonTraceEvent1 of the previous record into a local
    copyBack: bool,                      // CopyPythonTraceEvent1 of the local back in place
    slotAvailable: bool,                 // the store allocator
    copyIn: bool)                        // CopyPythonTraceEvent1 of the new record into its slot

  /** Everything one call of PyTraceEvent1 depends on, apart from the store. */
  datatype Signal = Signal(
    flags: TraceFlags,
    depth: int,
    pyFunction: PythonFunction,
    traits: EventTraits,
    env: Environment)

  /** The local `Flags` after sampling: a category stays on only if it was on
      in the context and its sample call succeeded. */
  function EffectiveFlags(flags: TraceFlags, env: Environment): TraceFlags {
    TraceFlags(flags.traceMemory && env.memoryInfo.Some?,
               flags.traceIoCounters && env.ioCounters.Some?,
               flags.traceHandleCount && env.handleCount.Some?)
  }

  /** The value of the combined traits field: the frame's line number for a
      line event, the call-stack depth otherwise. */
  function LineOrDepth(s: Signal): uint32 {
    ToUint32(if s.traits.isLine then s.env.frameLineNumber else s.depth)
  }

  /** The record built for a signal before the previous record is looked at. */
  function Candidate(s: Signal): Record {
    var eff := EffectiveFlags(s.flags, s.env);
    var mem := if eff.traceMemory then s.env.memoryInfo.value else MemoryCounters(0, 0, 0);
    var io := if eff.traceIoCounters then s.env.ioCounters.value else IoCounters(0, 0);
    var handles := if eff.traceHandleCount then s.env.handleCount.value else 0;
    var f := s.pyFunction;
    Record(
      s.env.elapsed, f.address,
      ToUint16(f.firstLineNumber), ToUint16(f.numberOfLines), ToUint16(f.numberOfCodeLines),
      s.env.threadId,
      f.codeObjectHash, ToUint32(f.signature), f.pathHash, f.fullNameHash,
      f.moduleNameHash, f.classNameHash, f.nameHash,
      EventTraitsEx(s.traits, false, LineOrDepth(s)),
      0,
      mem.workingSetSize, 0, mem.pageFaultCount, 0, mem.privateUsage, 0,
      io.readTransferCount, 0, io.writeTransferCount, 0,
      handles, 0)
  }

  /** The new record jumped backwards: the previous record was a line event
      with a greater line number than the new record's line-or-depth value.
      The new record's own kind is not consulted. */
  predicate ReverseJump(last: Record, event: Record) {
    last.traits.kind.isLine &&
    last.traits.lineNumberOrCallStackDepth > event.traits.lineNumberOrCallStackDepth
  }

  /** The previous record after the backpatch as lines 190-262 write it:
      elapsed time since it, and the deltas of every category still on, in
      the widths the record holds. The handle delta subtracts the previous
      record's handle DELTA, not its handle count (lines 257-260). */
  function Backpatch(last: Record, event: Record, eff: TraceFlags): Record {
    var elapsed := last.(elapsedMicroseconds := ToUint32(event.timestamp - last.timestamp));
    var memory :=
      if eff.traceMemory then
        elapsed.(workingSetDelta := ToInt32(event.workingSetSize - last.workingSetSize),
                 pageFaultDelta := ToUint16(event.pageFaultCount - last.pageFaultCount),
                 committedDelta := ToInt32(event.committedSize - last.committedSize))
      else elapsed;
    var io :=
      if eff.traceIoCounters then
        memory.(readTransferDelta := ToUint32(event.readTransferCount - last.readTransferCount),
                writeTransferDelta := ToUint32(event.writeTransferCount - last.writeTransferCount))
      else memory;
    if eff.traceHandleCount then
      io.(handleDelta := ToInt16(event.handleCount - last.handleDelta))
    else io
  }

  /** The backpatch with the handle delta computed as every other category
      computes its delta: the difference of the handle counts. */
  function BackpatchIntended(last: Record, event: Record, eff: TraceFlags): Record {
    var p := Backpatch(last, event, eff);
    if eff.traceHandleCount then p.(handleDelta := ToInt16(event.handleCount - last.handleCount)) else p
  }

  /** The new slot is appended if the allocator has room; it holds the record
      if the final copy succeeded, and stays zeroed otherwise. */
  function Append(records: seq<Record>, event: Record, env: Environment): seq<Record> {
    if env.slotAvailable then records + [if env.copyIn then event else ZeroRecord] else records
  }

  /** The store's records after one capture. */
  function CaptureRecords(records: seq<Record>, s: Signal): seq<Record> {
    var event := Candidate(s);
    if records != [] && s.env.copyOut then
      var last := records[|records| - 1];
      var jumped := event.(traits := event.traits.(isReverseJump := ReverseJump(last, event)));
      var patched :=
        if s.env.copyBack then records[|records| - 1 := Backpatch(last, event, EffectiveFlags(s.flags, s.env))]
        else records;
      Append(patched, jumped, s.env)
    else
      Append(records, event, s.env)
  }

  /** Lines 87-119: sample each enabled counter category. A failed sample
      turns its category off for this call only: the result is a local copy
      of the context's flags. */
  method SampleCounters(contextFlags: TraceFlags, env: Environment) returns (flags: TraceFlags)
    ensures flags.traceMemory <==> contextFlags.traceMemory && env.memoryInfo.Some?
    ensures flags.traceIoCounters <==> contextFlags.traceIoCounters && env.ioCounters.Some?
    ensures flags.traceHandleCount <==> contextFlags.traceHandleCount && env.handleCount.Some?
  {
    flags := contextFlags;
    if flags.traceMemory && env.memoryInfo.None? {
      flags := flags.(traceMemory := false);
    }
    if flags.traceIoCounters && env.ioCounters.None? {
      flags := flags.(traceIoCounters := false);
    }
    if flags.traceHandleCount && env.handleCount.None? {
      flags := flags.(traceHandleCount := false);
    }
  }

  /** Lines 121-152: the identity part of a zeroed record, from the function,
      the traits and the line-or-depth value. */
  method FillIdentity(pyFunction: PythonFunction, traits: EventTraits, env: Environment, depth: int)
    returns (event: Record)
    ensures event == Candidate(Signal(TraceFlags(false, false, false), depth, pyFunction, traits, env))
  {
    event := ZeroRecord;
    event := event.(timestamp := env.elapsed);
    event := event.(functionAddress := pyFunction.address);
    event := event.(firstLineNumber := ToUint16(pyFunction.firstLineNumber));
    event := event.(numberOfLines := ToUint16(pyFunction.numberOfLines));
    event := event.(numberOfCodeLines := ToUint16(pyFunction.numberOfCodeLines));
    event := event.(threadId := env.threadId);
    event := event.(codeObjectHash := pyFunction.codeObjectHash);
    event := event.(functionHash := ToUint32(pyFunction.signature));
    event := event.(pathHash := pyFunction.pathHash);
    event := event.(fullNameHash := pyFunction.fullNameHash);
    event := event.(moduleNameHash := pyFunction.moduleNameHash);
    event := event.(classNameHash := pyFunction.classNameHash);
    event := event.(nameHash := pyFunction.nameHash);

    event := event.(traits := EventTraitsEx(traits, false, 0));
    var lineOrDepth := if traits.isLine then env.frameLineNumber else depth;
    event := event.(traits := event.traits.(lineNumberOrCallStackDepth := ToUint32(lineOrDepth)));
  }

  /** Lines 87-171: sample the enabled counters, then fill a zeroed record
      from the function, the traits and the samples. */
  method BuildEvent(context: PythonTraceContext, pyFunction: PythonFunction, traits: EventTraits,
                    env: Environment) returns (event: Record, flags: TraceFlags)
    ensures flags == EffectiveFlags(context.flags, env)
    ensures event == Candidate(Signal(context.flags, context.depth, pyFunction, traits, env))
  {
    flags := SampleCounters(context.flags, env);
    event := FillIdentity(pyFunction, traits, env, context.depth);

    if flags.traceMemory {
      var counters := env.memoryInfo.value;
      event := event.(workingSetSize := counters.workingSetSize);
      event := event.(pageFaultCount := counters.pageFaultCount);
      event := event.(committedSize := counters.privateUsage);
    }
    if flags.traceIoCounters {
      var counters := env.ioCounters.value;
      event := event.(readTransferCount := counters.readTransferCount);
      event := event.(writeTransferCount := counters.writeTransferCount);
    }
    if flags.traceHandleCount {
      event := event.(handleCount := env.handleCount.value);
    }
  }

  /** Lines 190-262, on the local copies: the elapsed time and the deltas go
      into the previous record, the reverse-jump flag into the new one. */
  method BackpatchLocal(last: Record, event: Record, flags: TraceFlags)
    returns (lastEvent: Record, thisEvent: Record)
    ensures lastEvent == Backpatch(last, event, flags)
    ensures thisEvent == event.(traits := event.traits.(isReverseJump := event.traits.isReverseJump || ReverseJump(last, event)))
  {
    lastEvent, thisEvent := last, event;
    lastEvent := lastEvent.(elapsedMicroseconds := ToUint32(thisEvent.timestamp - lastEvent.timestamp));

    if lastEvent.traits.kind.isLine {
      if lastEvent.traits.lineNumberOrCallStackDepth > thisEvent.traits.lineNumberOrCallStackDepth {
        thisEvent := thisEvent.(traits := thisEvent.traits.(isReverseJump := true));
      }
    }

    if flags.traceMemory {
      lastEvent := lastEvent.(workingSetDelta := ToInt32(thisEvent.workingSetSize - lastEvent.workingSetSize));
      lastEvent := lastEvent.(pageFaultDelta := ToUint16(thisEvent.pageFaultCount - lastEvent.pageFaultCount));
      lastEvent := lastEvent.(committedDelta := ToInt32(thisEvent.committedSize - lastEvent.committedSize));
    }
    if flags.traceIoCounters {
      lastEvent := lastEvent.(readTransferDelta := ToUint32(thisEvent.readTransferCount - lastEvent.readTransferCount));
      lastEvent := lastEvent.(writeTransferDelta := ToUint32(thisEvent.writeTransferCount - lastEvent.writeTransferCount));
    }
    if flags.traceHandleCount {
      lastEvent := lastEvent.(handleDelta := ToInt16(thisEvent.handleCount - lastEvent.handleDelta));
    }
  }

  /** PyTraceEvent1 */
  method PyTraceEvent1(context: PythonTraceContext, pyFunction: PythonFunction, traits: EventTraits,
                       env: Environment) returns (success: bool)
    requires context.eventStore.Valid()
    modifies context.eventStore
    ensures context.eventStore.Valid()
    ensures success == env.slotAvailable
    ensures context.eventStore.records ==
            CaptureRecords(old(context.eventStore.records),
                           Signal(context.flags, context.depth, pyFunction, traits, env))
  {
    var eventStore := context.eventStore;
    var lastEventPointer := eventStore.prevAddress;
    var event, flags := BuildEvent(context, pyFunction, traits, env);

    label Finalize: {
      if lastEventPointer.None? {
        break Finalize;
      }
      if !env.copyOut {
        break Finalize;
      }
      var lastEvent := eventStore.records[lastEventPointer.value];
      lastEvent, event := BackpatchLocal(lastEvent, event, flags);
      // The copy back may fail; its result is ignored.
      if env.copyBack {
        eventStore.Write(lastEventPointer.value, lastEvent);
      }
    }

    var thisEvent := AllocatePythonTraceEvent1(eventStore, env.slotAvailable);
    if thisEvent.None? {
      return false;
    }
    // The final copy may fail too; the call still reports success.
    if env.copyIn {
      eventStore.Write(thisEvent.value, event);
    }
    return true;
  }
}
