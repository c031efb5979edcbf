/** What one capture, and a run of captures, does to the event store. */
module PyTraceEventProperties {
  import opened WinTypes
  import opened PythonTraceEvent
  import opened PyTraceEvent

  /** The store's records after capturing `signals` in order, starting from `records`. */
  function Trace(records: seq<Record>, signals: seq<Signal>): seq<Record>
    decreases |signals|
  {
    if signals == [] then records
    else CaptureRecords(Trace(records, signals[..|signals| - 1]), signals[|signals| - 1])
  }

  /** Every call the capture depends on succeeds: the previous record is
      copied out and back, and the new one gets a slot and is copied in. */
  predicate AllCopiesSucceed(env: Environment) {
    env.copyOut && env.copyBack && env.slotAvailable && env.copyIn
  }

  /** A capture appends exactly one record when the allocator has a slot and
      none otherwise; it never touches a record older than the previous one,
      and leaves the previous one alone when there is none, when copying it
      out fails, or when copying it back fails. The identity fields of every
      existing record survive. */
  lemma CaptureFrame(records: seq<Record>, s: Signal)
    ensures var r := CaptureRecords(records, s);
      |r| == |records| + (if s.env.slotAvailable then 1 else 0) &&
      (forall i :: 0 <= i < |records| - 1 ==> r[i] == records[i]) &&
      (records == [] || !s.env.copyOut || !s.env.copyBack ==> r[..|records|] == records) &&
      (forall i :: 0 <= i < |records| ==> IdentityOf(r[i]) == IdentityOf(records[i]) &&
                                          CountersOf(r[i]) == CountersOf(records[i]))
  {
    var r := CaptureRecords(records, s);
    if records != [] && s.env.copyOut && s.env.copyBack {
      var last := records[|records| - 1];
      var p := Backpatch(last, Candidate(s), EffectiveFlags(s.flags, s.env));
      assert r[|records| - 1] == p;
      assert IdentityOf(p) == IdentityOf(last);
    }
  }

  /** The appended record: a zeroed record filled with the signal's timestamp,
      the function's identity, the thread id and the traits, whose elapsed time
      and deltas are still zero; a counter category contributes its sample only
      when it is on and its sample call succeeded. */
  lemma NewRecordContents(records: seq<Record>, s: Signal)
    requires s.env.slotAvailable && s.env.copyIn
    ensures var r := CaptureRecords(records, s)[|records|];
      var f := s.pyFunction;
      r.timestamp == s.env.elapsed &&
      r.functionAddress == f.address &&
      r.firstLineNumber == ToUint16(f.firstLineNumber) &&
      r.numberOfLines == ToUint16(f.numberOfLines) &&
      r.numberOfCodeLines == ToUint16(f.numberOfCodeLines) &&
      r.threadId == s.env.threadId &&
      IdentityOf(r).hashes == [f.codeObjectHash, ToUint32(f.signature), f.pathHash, f.fullNameHash,
                               f.moduleNameHash, f.classNameHash, f.nameHash] &&
      r.traits.kind == s.traits &&
      Pending(r) &&
      (r.workingSetSize, r.pageFaultCount, r.committedSize) ==
        (if s.flags.traceMemory && s.env.memoryInfo.Some?
         then (s.env.memoryInfo.value.workingSetSize, s.env.memoryInfo.value.pageFaultCount,
               s.env.memoryInfo.value.privateUsage)
         else (0, 0, 0)) &&
      (r.readTransferCount, r.writeTransferCount) ==
        (if s.flags.traceIoCounters && s.env.ioCounters.Some?
         then (s.env.ioCounters.value.readTransferCount, s.env.ioCounters.value.writeTransferCount)
         else (0, 0)) &&
      r.handleCount == (if s.flags.traceHandleCount && s.env.handleCount.Some? then s.env.handleCount.value else 0)
  {
  }

  /** The combined field holds the frame's line number for a line event and
      the context's call depth for any other event. */
  lemma NewRecordLineOrDepth(records: seq<Record>, s: Signal)
    requires s.env.slotAvailable && s.env.copyIn
    ensures var r := CaptureRecords(records, s)[|records|];
      (s.traits.isLine ==> r.traits.lineNumberOrCallStackDepth == ToUint32(s.env.frameLineNumber)) &&
      (!s.traits.isLine ==> r.traits.lineNumberOrCallStackDepth == ToUint32(s.depth))
  {
  }

  /** The new record is flagged as a reverse jump exactly when there is a
      previous record, it could be copied out, it is a line event, and its
      line-or-depth value exceeds the new record's. */
  lemma ReverseJumpExactly(records: seq<Record>, s: Signal)
    requires s.env.slotAvailable && s.env.copyIn
    ensures var r := CaptureRecords(records, s)[|records|];
      r.traits.isReverseJump <==>
        (records != [] && s.env.copyOut &&
         records[|records| - 1].traits.kind.isLine &&
         records[|records| - 1].traits.lineNumberOrCallStackDepth > LineOrDepth(s))
  {
  }

  /** After a backpatch the previous record holds the low 32 bits of the time
      elapsed since it; adding them to its timestamp gives back the new
      timestamp modulo 2^32, and exactly when the gap fits in 32 bits. */
  lemma BackpatchElapsed(records: seq<Record>, s: Signal)
    requires records != [] && s.env.copyOut && s.env.copyBack
    ensures var last := records[|records| - 1];
      var p := CaptureRecords(records, s)[|records| - 1];
      p.elapsedMicroseconds == ToUint32(s.env.elapsed - last.timestamp) &&
      (last.timestamp + p.elapsedMicroseconds - s.env.elapsed) % TWO_32 == 0 &&
      (0 <= s.env.elapsed - last.timestamp < TWO_32 ==> last.timestamp + p.elapsedMicroseconds == s.env.elapsed)
  {
    var last := records[|records| - 1];
    var p := CaptureRecords(records, s)[|records| - 1];
    assert p == Backpatch(last, Candidate(s), EffectiveFlags(s.flags, s.env));
    CongruentSum(last.timestamp, p.elapsedMicroseconds, s.env.elapsed, TWO_32);
  }

  /** (d - (n - o)) % m == 0 implies (o + d - n) % m == 0. */
  lemma CongruentSum(o: int, d: int, n: int, m: int)
    requires m > 0 && (d - (n - o)) % m == 0
    ensures (o + d - n) % m == 0
  {
    assert o + d - n == d - (n - o);
  }

  /** The deltas the backpatch writes into the previous record, category by
      category: a category that is on (in the context, and its sample call
      succeeded) gets the truncated difference between the new sample and
      the previous record's counter; a category that is off keeps the
      previous record's delta fields as they were. The handle delta is the
      new handle count minus the previous record's handle DELTA, not minus
      its handle count, as lines 257-260 write it. */
  lemma BackpatchDeltas(records: seq<Record>, s: Signal)
    requires records != [] && s.env.copyOut && s.env.copyBack
    ensures var last := records[|records| - 1];
      var p := CaptureRecords(records, s)[|records| - 1];
      var eff := EffectiveFlags(s.flags, s.env);
      (eff.traceMemory ==>
         var m := s.env.memoryInfo.value;
         p.workingSetDelta == ToInt32(m.workingSetSize - last.workingSetSize) &&
         p.pageFaultDelta == ToUint16(m.pageFaultCount - last.pageFaultCount) &&
         p.committedDelta == ToInt32(m.privateUsage - last.committedSize)) &&
      (!eff.traceMemory ==>
         (p.workingSetDelta, p.pageFaultDelta, p.committedDelta) ==
         (last.workingSetDelta, last.pageFaultDelta, last.committedDelta)) &&
      (eff.traceIoCounters ==>
         var io := s.env.ioCounters.value;
         p.readTransferDelta == ToUint32(io.readTransferCount - last.readTransferCount) &&
         p.writeTransferDelta == ToUint32(io.writeTransferCount - last.writeTransferCount)) &&
      (!eff.traceIoCounters ==>
         (p.readTransferDelta, p.writeTransferDelta) == (last.readTransferDelta, last.writeTransferDelta)) &&
      (eff.traceHandleCount ==> p.handleDelta == ToInt16(s.env.handleCount.value - last.handleDelta)) &&
      (!eff.traceHandleCount ==> p.handleDelta == last.handleDelta) &&
      p == last.(elapsedMicroseconds := p.elapsedMicroseconds,
                 workingSetDelta := p.workingSetDelta, pageFaultDelta := p.pageFaultDelta,
                 committedDelta := p.committedDelta, readTransferDelta := p.readTransferDelta,
                 writeTransferDelta := p.writeTransferDelta, handleDelta := p.handleDelta)
  {
  }

  /** The memory and I/O deltas invert: added to the previous record's counter
      they give back the new sample, modulo the width the delta is stored in,
      and exactly whenever the true difference fits that width. */
  lemma DeltasRecoverCounters(records: seq<Record>, s: Signal)
    requires records != [] && s.env.copyOut && s.env.copyBack && s.env.slotAvailable && s.env.copyIn
    ensures var last := records[|records| - 1];
      var p := CaptureRecords(records, s)[|records| - 1];
      var r := CaptureRecords(records, s)[|records|];
      var eff := EffectiveFlags(s.flags, s.env);
      (eff.traceMemory ==>
         (last.workingSetSize + p.workingSetDelta - r.workingSetSize) % TWO_32 == 0 &&
         (last.pageFaultCount + p.pageFaultDelta - r.pageFaultCount) % TWO_16 == 0 &&
         (last.committedSize + p.committedDelta - r.committedSize) % TWO_32 == 0 &&
         (-TWO_31 <= r.workingSetSize - last.workingSetSize < TWO_31 ==>
            last.workingSetSize + p.workingSetDelta == r.workingSetSize) &&
         (0 <= r.pageFaultCount - last.pageFaultCount < TWO_16 ==>
            last.pageFaultCount + p.pageFaultDelta == r.pageFaultCount) &&
         (-TWO_31 <= r.committedSize - last.committedSize < TWO_31 ==>
            last.committedSize + p.committedDelta == r.committedSize)) &&
      (eff.traceIoCounters ==>
         (last.readTransferCount + p.readTransferDelta - r.readTransferCount) % TWO_32 == 0 &&
         (last.writeTransferCount + p.writeTransferDelta - r.writeTransferCount) % TWO_32 == 0 &&
         (0 <= r.readTransferCount - last.readTransferCount < TWO_32 ==>
            last.readTransferCount + p.readTransferDelta == r.readTransferCount) &&
         (0 <= r.writeTransferCount - last.writeTransferCount < TWO_32 ==>
            last.writeTransferCount + p.writeTransferDelta == r.writeTransferCount))
  {
    var last := records[|records| - 1];
    var p := CaptureRecords(records, s)[|records| - 1];
    var r := CaptureRecords(records, s)[|records|];
    var eff := EffectiveFlags(s.flags, s.env);
    BackpatchDeltas(records, s);
    NewRecordContents(records, s);
    if eff.traceMemory {
      CongruentSum(last.workingSetSize, p.workingSetDelta, r.workingSetSize, TWO_32);
      CongruentSum(last.pageFaultCount, p.pageFaultDelta, r.pageFaultCount, TWO_16);
      CongruentSum(last.committedSize, p.committedDelta, r.committedSize, TWO_32);
    }
    if eff.traceIoCounters {
      CongruentSum(last.readTransferCount, p.readTransferDelta, r.readTransferCount, TWO_32);
      CongruentSum(last.writeTransferCount, p.writeTransferDelta, r.writeTransferCount, TWO_32);
    }
  }

  /** The corrected backpatch differs from the one written only in the handle
      delta, and its handle delta inverts like the other deltas: added to the
      previous handle count it gives the new one modulo 2^16, and exactly
      whenever the true difference fits a SHORT. */
  lemma HandleDeltaIntendedRecoversCount(last: Record, event: Record, eff: TraceFlags)
    ensures var q := BackpatchIntended(last, event, eff);
      q == Backpatch(last, event, eff).(handleDelta := q.handleDelta) &&
      (!eff.traceHandleCount ==> q == Backpatch(last, event, eff)) &&
      (eff.traceHandleCount ==>
         (last.handleCount + q.handleDelta - event.handleCount) % TWO_16 == 0 &&
         (-TWO_15 <= event.handleCount - last.handleCount < TWO_15 ==>
            last.handleCount + q.handleDelta == event.handleCount))
  {
    var q := BackpatchIntended(last, event, eff);
    if eff.traceHandleCount {
      CongruentSum(last.handleCount, q.handleDelta, event.handleCount, TWO_16);
    }
  }

  /** As written, the handle delta of a previous record that is still
      pending (its handle delta is zero) is the new handle count itself,
      truncated to 16 bits, and not a difference of counts. */
  lemma HandleDeltaAsWrittenOfPendingRecord(last: Record, event: Record, eff: TraceFlags)
    requires Pending(last) && eff.traceHandleCount
    ensures Backpatch(last, event, eff).handleDelta == ToInt16(event.handleCount)
  {
  }

  /** An input on which the formula as written and the difference of counts
      disagree: 100 handles open before, 105 after. As written the delta is
      105, and adding it to the old count does not give the new one; the
      corrected backpatch records 5. `BackpatchDeltas` carries the formula
      as written into every capture. */
  lemma HandleDeltaAsWrittenCounterexample()
    ensures var last := ZeroRecord.(handleCount := 100);
      var event := ZeroRecord.(handleCount := 105);
      var eff := TraceFlags(false, false, true);
      Backpatch(last, event, eff).handleDelta == 105 &&
      last.handleCount + Backpatch(last, event, eff).handleDelta != event.handleCount &&
      BackpatchIntended(last, event, eff).handleDelta == 5 &&
      last.handleCount + BackpatchIntended(last, event, eff).handleDelta == event.handleCount
  {
  }

  /** A sample call that fails switches its category off for that call only:
      the context's flags are not changed, so the next capture whose sample
      succeeds records the counter again. */
  lemma SampleFailureIsNotSticky(records: seq<Record>, s1: Signal, s2: Signal)
    requires s1.flags.traceMemory && s1.env.memoryInfo.None?
    requires s2.flags == s1.flags && s2.env.memoryInfo.Some?
    requires s2.env.slotAvailable && s2.env.copyIn
    ensures var after := CaptureRecords(records, s1);
      CaptureRecords(after, s2)[|after|].workingSetSize == s2.env.memoryInfo.value.workingSetSize
  {
    NewRecordContents(CaptureRecords(records, s1), s2);
  }

  /** Round trip: capturing N signals into an empty store, every one of them
      given a slot and copied in, yields exactly N records, the k-th of which
      carries the identity built for the k-th signal. */
  lemma {:induction false} TraceRoundTrip(signals: seq<Signal>)
    requires forall k :: 0 <= k < |signals| ==> signals[k].env.slotAvailable && signals[k].env.copyIn
    ensures |Trace([], signals)| == |signals|
    ensures forall k :: 0 <= k < |signals| ==> IdentityOf(Trace([], signals)[k]) == IdentityOf(Candidate(signals[k]))
  {
    if signals != [] {
      var init := signals[..|signals| - 1];
      var s := signals[|signals| - 1];
      TraceRoundTrip(init);
      var before := Trace([], init);
      CaptureFrame(before, s);
      NewRecordContents(before, s);
      forall k | 0 <= k < |signals|
        ensures IdentityOf(Trace([], signals)[k]) == IdentityOf(Candidate(signals[k]))
      {
        if k < |init| {
          assert signals[k] == init[k];
        }
      }
    }
  }

  /** Each record but the last holds the low 32 bits of the time to its successor. */
  predicate ElapsedChained(t: seq<Record>) {
    forall k :: 0 <= k < |t| - 1 ==> t[k].elapsedMicroseconds == ToUint32(t[k + 1].timestamp - t[k].timestamp)
  }

  /** Each record after the first is a reverse jump exactly when its
      predecessor is a line event with a greater line-or-depth value. */
  predicate JumpsChained(t: seq<Record>) {
    forall k :: 0 < k < |t| ==>
      (t[k].traits.isReverseJump <==>
       t[k - 1].traits.kind.isLine &&
       t[k - 1].traits.lineNumberOrCallStackDepth > t[k].traits.lineNumberOrCallStackDepth)
  }

  /** One fully successful capture onto a non-empty store: older records
      unchanged, the previous one backpatched, the new one appended. */
  lemma CaptureStep(before: seq<Record>, s: Signal)
    requires before != [] && AllCopiesSucceed(s.env)
    ensures var t := CaptureRecords(before, s);
      var n := |before|;
      |t| == n + 1 &&
      t[..n - 1] == before[..n - 1] &&
      t[n - 1].timestamp == before[n - 1].timestamp &&
      t[n - 1].traits == before[n - 1].traits &&
      t[n - 1].elapsedMicroseconds == ToUint32(t[n].timestamp - t[n - 1].timestamp) &&
      t[n].traits.isReverseJump == ReverseJump(before[n - 1], t[n]) &&
      Pending(t[n])
  {
    CaptureFrame(before, s);
    NewRecordContents(before, s);
    ReverseJumpExactly(before, s);
    BackpatchElapsed(before, s);
  }

  /** The elapsed chain survives a step that keeps all but the last record,
      keeps the last one's timestamp and fills in its elapsed time. */
  lemma ElapsedChainExtends(before: seq<Record>, t: seq<Record>)
    requires before != [] && |t| == |before| + 1
    requires ElapsedChained(before)
    requires var n := |before|;
      t[..n - 1] == before[..n - 1] &&
      t[n - 1].timestamp == before[n - 1].timestamp &&
      t[n - 1].elapsedMicroseconds == ToUint32(t[n].timestamp - t[n - 1].timestamp)
    ensures ElapsedChained(t)
  {
    var n := |before|;
    forall k | 0 <= k < |t| - 1
      ensures t[k].elapsedMicroseconds == ToUint32(t[k + 1].timestamp - t[k].timestamp)
    {
      if k < n - 1 {
        assert t[k] == t[..n - 1][k] == before[k];
        if k + 1 < n - 1 {
          assert t[k + 1] == t[..n - 1][k + 1];
        }
      }
    }
  }

  /** The reverse-jump chain survives a step that keeps the traits of all
      existing records and flags the new one against its predecessor. */
  lemma JumpChainExtends(before: seq<Record>, t: seq<Record>)
    requires before != [] && |t| == |before| + 1
    requires JumpsChained(before)
    requires var n := |before|;
      t[..n - 1] == before[..n - 1] &&
      t[n - 1].traits == before[n - 1].traits &&
      t[n].traits.isReverseJump == ReverseJump(before[n - 1], t[n])
    ensures JumpsChained(t)
  {
    var n := |before|;
    forall k | 0 <= k < n
      ensures t[k].traits == before[k].traits
    {
      if k < n - 1 {
        assert t[k] == t[..n - 1][k];
      }
    }
  }

  /** Delta correctness along a run in which every copy and allocation
      succeeds: each record but the last holds the low 32 bits of the time to
      its successor, and the last record is still pending. */
  lemma {:induction false} TraceElapsed(signals: seq<Signal>)
    requires forall k :: 0 <= k < |signals| ==> AllCopiesSucceed(signals[k].env)
    ensures var t := Trace([], signals);
      |t| == |signals| && ElapsedChained(t) && (t != [] ==> Pending(t[|t| - 1]))
  {
    if signals != [] {
      var init := signals[..|signals| - 1];
      var s := signals[|signals| - 1];
      assert forall k :: 0 <= k < |init| ==> init[k] == signals[k];
      TraceElapsed(init);
      var before := Trace([], init);
      NewRecordContents(before, s);
      CaptureFrame(before, s);
      if before != [] {
        CaptureStep(before, s);
        ElapsedChainExtends(before, CaptureRecords(before, s));
      }
    }
  }

  /** Along a run in which every copy and allocation succeeds, the first
      record is never a reverse jump and each later one is exactly when its
      predecessor is a line event with a greater line-or-depth value. */
  lemma {:induction false} TraceReverseJumps(signals: seq<Signal>)
    requires forall k :: 0 <= k < |signals| ==> AllCopiesSucceed(signals[k].env)
    ensures var t := Trace([], signals);
      |t| == |signals| && JumpsChained(t) && (t != [] ==> !t[0].traits.isReverseJump)
  {
    if signals != [] {
      var init := signals[..|signals| - 1];
      var s := signals[|signals| - 1];
      assert forall k :: 0 <= k < |init| ==> init[k] == signals[k];
      TraceReverseJumps(init);
      var before := Trace([], init);
      ReverseJumpExactly(before, s);
      CaptureFrame(before, s);
      if before != [] {
        CaptureStep(before, s);
        JumpChainExtends(before, CaptureRecords(before, s));
        assert CaptureRecords(before, s)[0] == before[0] || |before| == 1;
      }
    }
  }

  /** A line-event stream at ticks 100, 250, 400 on lines 5, 3, 3: the first
      two records each get 150 elapsed ticks, the second is a reverse jump
      (5 > 3), the third is not (3 == 3) and is still pending. */
  lemma LineStreamScenario(f: PythonFunction, flags: TraceFlags, depth: int, env: Environment)
    requires AllCopiesSucceed(env)
    ensures var lineEvent := EventTraits(false, false, true, false, false);
      var s1 := Signal(flags, depth, f, lineEvent, env.(elapsed := 100, frameLineNumber := 5));
      var s2 := Signal(flags, depth, f, lineEvent, env.(elapsed := 250, frameLineNumber := 3));
      var s3 := Signal(flags, depth, f, lineEvent, env.(elapsed := 400, frameLineNumber := 3));
      var t := Trace([], [s1, s2, s3]);
      |t| == 3 &&
      t[0].elapsedMicroseconds == 150 && t[1].elapsedMicroseconds == 150 &&
      t[1].traits.isReverseJump && !t[2].traits.isReverseJump &&
      Pending(t[2])
  {
    var lineEvent := EventTraits(false, false, true, false, false);
    var s1 := Signal(flags, depth, f, lineEvent, env.(elapsed := 100, frameLineNumber := 5));
    var s2 := Signal(flags, depth, f, lineEvent, env.(elapsed := 250, frameLineNumber := 3));
    var s3 := Signal(flags, depth, f, lineEvent, env.(elapsed := 400, frameLineNumber := 3));
    var signals := [s1, s2, s3];
    TraceElapsed(signals);
    TraceReverseJumps(signals);
    TraceRoundTrip(signals);
    var t := Trace([], signals);
    assert IdentityOf(t[0]) == IdentityOf(Candidate(s1));
    assert IdentityOf(t[1]) == IdentityOf(Candidate(s2));
    assert IdentityOf(t[2]) == IdentityOf(Candidate(s3));
  }
}
