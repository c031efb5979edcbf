/** The PYTHON_TRACE_EVENT1 record, the function identity it copies from, and
    the event trace store records are appended to.

    The store is modelled as an append-only sequence of records with a cursor
    that is either none (empty store) or the index of the last record: the
    `PrevAddress` the capture path reads. Its allocator is not part of this
    model; an allocation either appends one zeroed record or fails and leaves
    the store as it was. */
module PythonTraceEvent {
  import opened WinTypes

  /** The kind bits of PYTHON_EVENT_TRAITS (its `AsByte`). */
  datatype EventTraits = EventTraits(
    isCall: bool,
    isException: bool,
    isLine: bool,
    isReturn: bool,
    isC: bool)

  /** The record's EventTraitsEx: the copied kind bits, the reverse-jump flag
      and the combined line-number-or-call-stack-depth field. */
  datatype EventTraitsEx = EventTraitsEx(
    kind: EventTraits,
    isReverseJump: bool,
    lineNumberOrCallStackDepth: uint32)

  /** The fields of PYTHON_FUNCTION the capture path reads. `address` is the
      function pointer itself, stored in the record as `Function`. */
  datatype PythonFunction = PythonFunction(
    address: nat,
    firstLineNumber: int,
    numberOfLines: int,
    numberOfCodeLines: int,
    codeObjectHash: uint32,
    signature: uint64,
    pathHash: uint32,
    fullNameHash: uint32,
    moduleNameHash: uint32,
    classNameHash: uint32,
    nameHash: uint32)

  /** One PYTHON_TRACE_EVENT1 record. Each resource counter is paired with the
      delta that is filled in when the next record is captured. */
  datatype Record = Record(
    timestamp: int64,
    functionAddress: nat,
    firstLineNumber: uint16,
    numberOfLines: uint16,
    numberOfCodeLines: uint16,
    threadId: uint32,
    codeObjectHash: uint32,
    functionHash: uint32,
    pathHash: uint32,
    fullNameHash: uint32,
    moduleNameHash: uint32,
    classNameHash: uint32,
    nameHash: uint32,
    traits: EventTraitsEx,
    elapsedMicroseconds: uint32,
    workingSetSize: uint64,
    workingSetDelta: int32,
    pageFaultCount: uint32,
    pageFaultDelta: uint16,
    committedSize: uint64,
    committedDelta: int32,
    readTransferCount: uint64,
    readTransferDelta: uint32,
    writeTransferCount: uint64,
    writeTransferDelta: uint32,
    handleCount: uint32,
    handleDelta: int16)

  const NoTraits := EventTraits(false, false, false, false, false)

  /** The all-zero record: what SecureZeroMemory leaves and what the allocator hands out. */
  const ZeroRecord := Record(0, 0, 0, 0, 0, 0, 0, 0, 0, 0, 0, 0, 0,
                             EventTraitsEx(NoTraits, false, 0),
                             0, 0, 0, 0, 0, 0, 0, 0, 0, 0, 0, 0, 0)

  /** The fields written once, when a record is captured, and never by a
      backpatch: timestamp, function, line counts, thread, the seven hashes,
      the event kind and the line-or-depth value. */
  datatype Identity = Identity(
    timestamp: int64,
    functionAddress: nat,
    lineCounts: seq<uint16>,
    threadId: uint32,
    hashes: seq<uint32>,
    kind: EventTraits,
    lineNumberOrCallStackDepth: uint32)

  function IdentityOf(r: Record): Identity {
    Identity(r.timestamp, r.functionAddress,
             [r.firstLineNumber, r.numberOfLines, r.numberOfCodeLines],
             r.threadId,
             [r.codeObjectHash, r.functionHash, r.pathHash, r.fullNameHash,
              r.moduleNameHash, r.classNameHash, r.nameHash],
             r.traits.kind, r.traits.lineNumberOrCallStackDepth)
  }

  /** The resource counters of a record (without their deltas). */
  datatype Counters = Counters(
    workingSetSize: uint64,
    pageFaultCount: uint32,
    committedSize: uint64,
    readTransferCount: uint64,
    writeTransferCount: uint64,
    handleCount: uint32)

  function CountersOf(r: Record): Counters {
    Counters(r.workingSetSize, r.pageFaultCount, r.committedSize,
             r.readTransferCount, r.writeTransferCount, r.handleCount)
  }

  /** A record whose elapsed time and deltas are still zero: not yet superseded. */
  predicate Pending(r: Record) {
    r.elapsedMicroseconds == 0 &&
    r.workingSetDelta == 0 && r.pageFaultDelta == 0 && r.committedDelta == 0 &&
    r.readTransferDelta == 0 && r.writeTransferDelta == 0 && r.handleDelta == 0
  }

  /** The event trace store: the records allocated so far and `PrevAddress`. */
  class TraceStore {
    var records: seq<Record>
    var prevAddress: Option<nat>

    /** `PrevAddress` is null exactly when the store is empty, and otherwise
        addresses the last record. */
    ghost predicate Valid()
      reads this
    {
      prevAddress == if records == [] then None else Some(|records| - 1)
    }

    constructor ()
      ensures Valid() && records == []
    {
      records := [];
      prevAddress := None;
    }

    /** AllocateRecordsWithTimestamp for `numberOfRecords` records: on success
        a zeroed block is appended and the cursor moves to its last record; on
        failure nothing changes. */
    method AllocateRecords(numberOfRecords: nat, available: bool) returns (first: Option<nat>)
      requires Valid() && numberOfRecords >= 1
      modifies this
      ensures Valid()
      ensures available ==> first == Some(|old(records)|) &&
                            records == old(records) + seq(numberOfRecords, _ => ZeroRecord)
      ensures !available ==> first == None && records == old(records) && prevAddress == old(prevAddress)
    {
      if !available {
        return None;
      }
      first := Some(|records|);
      records := records + seq(numberOfRecords, _ => ZeroRecord);
      prevAddress := Some(|records| - 1);
    }

    /** Copies `r` over the record at `index`, in place. */
    method Write(index: nat, r: Record)
      requires Valid() && index < |records|
      modifies this
      ensures Valid()
      ensures records == old(records)[index := r] && prevAddress == old(prevAddress)
    {
      records := records[index := r];
    }
  }

  /** AllocatePythonTraceEvent1: one record of the event size. */
  method AllocatePythonTraceEvent1(store: TraceStore, available: bool) returns (slot: Option<nat>)
    requires store.Valid()
    modifies store
    ensures store.Valid()
    ensures available ==> slot == Some(|old(store.records)|) &&
                          store.records == old(store.records) + [ZeroRecord] &&
                          store.prevAddress == slot
    ensures !available ==> slot == None && store.records == old(store.records) &&
                           store.prevAddress == old(store.prevAddress)
  {
    slot := store.AllocateRecords(1, available);
    assert available ==> seq(1, _ => ZeroRecord) == [ZeroRecord];
  }
}
