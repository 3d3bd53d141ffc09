/** sync_buffer (driver/buffer_sync.c): drain one CPU's ring into the event buffer, as the
  * RRPROFILE build does it. */
module BufferSync {
  import opened EventStream
  import opened CpuBuffer

  datatype Phase = BtIgnore | BufferStart | BtStart | SampleStart

  /** What sync_buffer carries from entry to entry; `btLost` counts what it adds to
    * bt_lost_no_mapping. */
  datatype SyncState = SyncState(phase: Phase, tgid: nat, btLost: nat)

  const SYNC_INIT := SyncState(BufferStart, 0, 0)

  predicate IsCode(a: Arch, e: OpSample) { e.eip == a.Escape() }

  /** The record that a code entry is turned into, if any. */
  function CodeRecord(a: Arch, tgid: nat, e: OpSample): seq<Record> {
    if e.event <= CPU_IS_KERNEL then [if e.event == 1 then KernelEnter else KernelExit]
    else if e.event == CPU_TRACE_BEGIN then [TraceBegin]
    else if e.event == RR_CPU_CTX_TID then [CtxSwitch(a.ToWord(e.timestamp), tgid)]
    else if e.event == StampEvent(SamplingBegin) then [Timestamp(SamplingBegin, e.timestamp)]
    else if e.event == StampEvent(SamplingEnd) then [Timestamp(SamplingEnd, e.timestamp)]
    else if e.event == StampEvent(SampleBegin) then [Timestamp(SampleBegin, e.timestamp)]
    else if e.event == StampEvent(SampleEnd) then [Timestamp(SampleEnd, e.timestamp)]
    else []
  }

  function EmitOne(a: Arch, s: SyncState, e: OpSample): seq<Record> {
    if IsCode(a, e) then CodeRecord(a, s.tgid, e)
    else if s.phase in {BtStart, SampleStart} && e.eip != 0 then [Sample(e.eip, e.event)]
    else []
  }

  function SyncStep(a: Arch, s: SyncState, e: OpSample): SyncState {
    if IsCode(a, e) then
      if e.event <= CPU_IS_KERNEL then s.(phase := if s.phase == BufferStart then SampleStart else s.phase)
      else if e.event == CPU_TRACE_BEGIN then s.(phase := BtStart)
      else if e.event == RR_CPU_CTX_TGID then s.(tgid := a.ToWord(e.timestamp))
      else s
    else if s.phase == BtStart && e.eip == 0 then s.(phase := BtIgnore, btLost := s.btLost + 1)
    else s
  }

  function SyncAll(a: Arch, s: SyncState, es: seq<OpSample>): SyncState {
    if es == [] then s else SyncStep(a, SyncAll(a, s, es[..|es| - 1]), es[|es| - 1])
  }

  function EmitAll(a: Arch, s: SyncState, es: seq<OpSample>): seq<Record> {
    if es == [] then []
    else EmitAll(a, s, es[..|es| - 1]) + EmitOne(a, SyncAll(a, s, es[..|es| - 1]), es[|es| - 1])
  }

  /** The records of one whole batch. */
  function BatchRecords(a: Arch, cpu: nat, batch: seq<OpSample>): seq<Record> {
    [CpuSwitch(cpu)] + EmitAll(a, SYNC_INIT, batch)
  }

  // ---- the same, said of positions in the batch ----

  predicate IsModeNote(a: Arch, e: OpSample) { IsCode(a, e) && e.event <= CPU_IS_KERNEL }
  predicate IsTraceBegin(a: Arch, e: OpSample) { IsCode(a, e) && e.event == CPU_TRACE_BEGIN }
  predicate IsNull(a: Arch, e: OpSample) { !IsCode(a, e) && e.eip == 0 }

  /** Entry `t` opens the trace that position `i` lies in. */
  predicate OpensTraceOf(a: Arch, batch: seq<OpSample>, t: nat, i: nat) {
    && t < i <= |batch| && IsTraceBegin(a, batch[t])
    && forall j :: t < j < i ==> !IsTraceBegin(a, batch[j])
  }

  predicate InTrace(a: Arch, batch: seq<OpSample>, i: nat) {
    exists t :: 0 <= t < i && OpensTraceOf(a, batch, t, i)
  }

  /** The trace that position `i` lies in has had a null pc before `i`. */
  predicate CutBefore(a: Arch, batch: seq<OpSample>, i: nat) {
    exists t, j :: 0 <= t < j < i && OpensTraceOf(a, batch, t, i) && IsNull(a, batch[j])
  }

  /** Which samples come out: the non-null ones, in a trace not cut yet or else after the
    * first mode note of the batch. */
  predicate Shown(a: Arch, batch: seq<OpSample>, i: nat)
    requires i < |batch|
  {
    && !IsCode(a, batch[i]) && batch[i].eip != 0
    && if InTrace(a, batch, i) then !CutBefore(a, batch, i)
       else exists j :: 0 <= j < i && IsModeNote(a, batch[j])
  }

  /** The timestamp field of the last TGID note. */
  function LastTgid(a: Arch, es: seq<OpSample>): nat {
    if es == [] then 0
    else if IsCode(a, es[|es| - 1]) && es[|es| - 1].event == RR_CPU_CTX_TGID then a.ToWord(es[|es| - 1].timestamp)
    else LastTgid(a, es[..|es| - 1])
  }

  /** The record of a code entry, by its number: 102 to 105 are the timestamps. */
  function NoteRecord(a: Arch, tgid: nat, e: OpSample): seq<Record> {
    match e.event
    case 0 => [KernelExit]
    case 1 => [KernelEnter]
    case 2 => [TraceBegin]
    case 101 => [CtxSwitch(a.ToWord(e.timestamp), tgid)]
    case 102 => [Timestamp(SamplingBegin, e.timestamp)]
    case 103 => [Timestamp(SamplingEnd, e.timestamp)]
    case 104 => [Timestamp(SampleBegin, e.timestamp)]
    case 105 => [Timestamp(SampleEnd, e.timestamp)]
    case _ => []
  }

  lemma CodesByNumber(a: Arch, tgid: nat, e: OpSample)
    ensures CodeRecord(a, tgid, e) == NoteRecord(a, tgid, e)
  {
  }

  function RecordsUpTo(a: Arch, batch: seq<OpSample>, n: nat): seq<Record>
    requires n <= |batch|
  {
    if n == 0 then []
    else RecordsUpTo(a, batch, n - 1) +
         (if IsCode(a, batch[n - 1]) then NoteRecord(a, LastTgid(a, batch[..n - 1]), batch[n - 1])
          else if Shown(a, batch, n - 1) then [Sample(batch[n - 1].eip, batch[n - 1].event)]
          else [])
  }

  /** The number of traces that a null pc cuts. */
  function CutsUpTo(a: Arch, batch: seq<OpSample>, n: nat): nat
    requires n <= |batch|
  {
    if n == 0 then 0
    else CutsUpTo(a, batch, n - 1) +
         (if IsNull(a, batch[n - 1]) && InTrace(a, batch, n - 1) && !CutBefore(a, batch, n - 1) then 1 else 0)
  }

  function TracesUpTo(a: Arch, batch: seq<OpSample>, n: nat): nat
    requires n <= |batch|
  {
    if n == 0 then 0 else TracesUpTo(a, batch, n - 1) + (if IsTraceBegin(a, batch[n - 1]) then 1 else 0)
  }

  predicate HasModeNote(a: Arch, batch: seq<OpSample>, n: nat)
    requires n <= |batch|
  {
    exists j :: 0 <= j < n && IsModeNote(a, batch[j])
  }

  /** How the position predicates move from `n` to `n + 1`. */
  lemma PositionsStep(a: Arch, batch: seq<OpSample>, n: nat)
    requires n < |batch|
    ensures InTrace(a, batch, n + 1) <==> IsTraceBegin(a, batch[n]) || InTrace(a, batch, n)
    ensures CutBefore(a, batch, n + 1) <==>
            !IsTraceBegin(a, batch[n]) &&
            (CutBefore(a, batch, n) || (InTrace(a, batch, n) && IsNull(a, batch[n])))
    ensures HasModeNote(a, batch, n + 1) <==> HasModeNote(a, batch, n) || IsModeNote(a, batch[n])
  {
    if IsTraceBegin(a, batch[n]) {
      assert OpensTraceOf(a, batch, n, n + 1);
    }
    if InTrace(a, batch, n) && !IsTraceBegin(a, batch[n]) {
      var t :| 0 <= t < n && OpensTraceOf(a, batch, t, n);
      assert OpensTraceOf(a, batch, t, n + 1);
    }
    if CutBefore(a, batch, n) && !IsTraceBegin(a, batch[n]) {
      var t, j :| 0 <= t < j < n && OpensTraceOf(a, batch, t, n) && IsNull(a, batch[j]);
      assert OpensTraceOf(a, batch, t, n + 1);
    }
    if CutBefore(a, batch, n + 1) {
      var t, j :| 0 <= t < j < n + 1 && OpensTraceOf(a, batch, t, n + 1) && IsNull(a, batch[j]);
      assert OpensTraceOf(a, batch, t, n);
    }
    if InTrace(a, batch, n + 1) && !IsTraceBegin(a, batch[n]) {
      var t :| 0 <= t < n + 1 && OpensTraceOf(a, batch, t, n + 1);
      assert OpensTraceOf(a, batch, t, n);
    }
    if HasModeNote(a, batch, n) {
      var j :| 0 <= j < n && IsModeNote(a, batch[j]);
      assert IsModeNote(a, batch[j]);
    }
  }

  function PhaseAt(a: Arch, batch: seq<OpSample>, n: nat): Phase
    requires n <= |batch|
  {
    if InTrace(a, batch, n) then if CutBefore(a, batch, n) then BtIgnore else BtStart
    else if HasModeNote(a, batch, n) then SampleStart else BufferStart
  }

  /** The machine's state behind the first `n` entries, by positions. */
  function StateAt(a: Arch, batch: seq<OpSample>, n: nat): SyncState
    requires n <= |batch|
  {
    SyncState(PhaseAt(a, batch, n), LastTgid(a, batch[..n]), CutsUpTo(a, batch, n))
  }

  lemma StateStep(a: Arch, batch: seq<OpSample>, n: nat)
    requires n < |batch|
    ensures SyncStep(a, StateAt(a, batch, n), batch[n]) == StateAt(a, batch, n + 1)
  {
    assert batch[..n + 1][..n] == batch[..n];
    PositionsStep(a, batch, n);
  }

  lemma RecordsStep(a: Arch, batch: seq<OpSample>, n: nat)
    requires n < |batch|
    ensures RecordsUpTo(a, batch, n + 1) == RecordsUpTo(a, batch, n) + EmitOne(a, StateAt(a, batch, n), batch[n])
  {
    CodesByNumber(a, LastTgid(a, batch[..n]), batch[n]);
    PositionsStep(a, batch, n);
    assert Shown(a, batch, n) <==>
           !IsCode(a, batch[n]) && batch[n].eip != 0
           && if InTrace(a, batch, n) then !CutBefore(a, batch, n) else HasModeNote(a, batch, n);
  }

  /** sync_buffer refines the description by positions: for every ring content it emits the
    * records of exactly the shown samples and of the notes, in order, and raises
    * bt_lost_no_mapping once for each trace that a null pc cuts and so at most once for
    * each trace-begin. */
  lemma {:induction false} EmitsExactly(a: Arch, batch: seq<OpSample>, n: nat)
    requires n <= |batch|
    ensures var s := SyncAll(a, SYNC_INIT, batch[..n]);
            && EmitAll(a, SYNC_INIT, batch[..n]) == RecordsUpTo(a, batch, n)
            && s == StateAt(a, batch, n)
            && s.btLost + (if s.phase == BtStart then 1 else 0) <= TracesUpTo(a, batch, n)
  {
    if n > 0 {
      EmitsExactly(a, batch, n - 1);
      assert batch[..n][..n - 1] == batch[..n - 1];
      StateStep(a, batch, n - 1);
      RecordsStep(a, batch, n - 1);
    }
  }

  // ---- what a ring holds fits into words ----

  lemma {:induction false} EmitAllEncodable(a: Arch, s: SyncState, es: seq<OpSample>)
    requires AllStorable(a, es) && s.tgid < a.WordLimit()
    ensures AllEncodable(a, EmitAll(a, s, es)) && SyncAll(a, s, es).tgid < a.WordLimit()
  {
    if es != [] {
      EmitAllEncodable(a, s, es[..|es| - 1]);
      EmitOneEncodable(a, SyncAll(a, s, es[..|es| - 1]), es[|es| - 1]);
    }
  }

  lemma EmitOneEncodable(a: Arch, s: SyncState, e: OpSample)
    requires Storable(a, e) && s.tgid < a.WordLimit()
    ensures AllEncodable(a, EmitOne(a, s, e)) && SyncStep(a, s, e).tgid < a.WordLimit()
  {
  }
}
