/** The per-CPU ring that interrupt handlers write and sync_buffer reads (driver/cpu_buffer.c).
  *
  * `Queue` is the ring as a value: the entries between tail and head, and the fields that
  * the producers keep. The functions on it say what each producer call does; the class
  * performs the same calls on an array with head and tail positions. */
module CpuBuffer {
  import opened Sequences
  import opened Wrappers
  import opened EventStream

  const CPU_IS_KERNEL := 1
  const CPU_TRACE_BEGIN := 2
  const RR_CPU_CTX_TGID := 100
  const RR_CPU_CTX_TID := 101

  function StampEvent(k: StampKind): nat {
    match k
    case SamplingBegin => 102
    case SamplingEnd => 103
    case SampleBegin => 104
    case SampleEnd => 105
  }

  datatype OpSample = OpSample(eip: nat, event: nat, timestamp: nat)

  /** A task pointer: equal pointers have equal ids, hence equal tgid and pid. */
  datatype Task = Task(id: nat, tgid: nat, pid: nat)

  datatype Stats = Stats(received: nat, lostOverflow: nat, aborted: nat, invalidEip: nat)

  datatype Queue = Queue(pending: seq<OpSample>, size: nat,
                         lastIsKernel: int, lastTask: Option<Task>, tracing: bool, stats: Stats)
  {
    function Free(): int { size - 1 - |pending| }
  }

  /** One producer call. `chain` is what the backtrace operation offers, one pc per call of
    * oprofile_add_trace. */
  datatype Call =
    | ExtSample(pc: nat, event: nat, kernel: bool, task: Task, chain: seq<nat>)
    | Stamp(kind: StampKind, time: nat)

  function KernelFlag(kernel: bool): int { if kernel then 1 else 0 }

  // ---- what a producer call does to the queue ----

  function Code(a: Arch, event: nat, stamp: nat): OpSample { OpSample(a.Escape(), event, stamp) }

  /** Writing one slot. Nothing checks for room here: with no free slot the head lands on
    * the tail and the ring looks empty. */
  function Enqueue(q: Queue, e: OpSample): Queue {
    q.(pending := if q.Free() > 0 then q.pending + [e] else [])
  }

  function EnqueueAll(q: Queue, es: seq<OpSample>): Queue
    decreases |es|
  {
    if es == [] then q else EnqueueAll(Enqueue(q, es[0]), es[1..])
  }

  function ModeNotes(a: Arch, q: Queue, kernel: bool): seq<OpSample> {
    if q.lastIsKernel != KernelFlag(kernel) then [Code(a, KernelFlag(kernel), 0)] else []
  }

  function TaskNotes(a: Arch, q: Queue, task: Task): seq<OpSample> {
    if q.lastTask != Some(task)
    then [Code(a, RR_CPU_CTX_TGID, task.tgid), Code(a, RR_CPU_CTX_TID, task.pid)] else []
  }

  /** A sample with the switching notes that go before it. */
  function NotedSample(a: Arch, q: Queue, pc: nat, event: nat, kernel: bool, task: Task): seq<OpSample> {
    ModeNotes(a, q, kernel) + TaskNotes(a, q, task) + [OpSample(pc, event, 0)]
  }

  function CountReceived(q: Queue): Queue { q.(stats := q.stats.(received := q.stats.received + 1)) }
  function CountLost(q: Queue): Queue { q.(stats := q.stats.(lostOverflow := q.stats.lostOverflow + 1)) }
  function CountAborted(q: Queue): Queue { q.(stats := q.stats.(aborted := q.stats.aborted + 1)) }
  function CountInvalid(q: Queue): Queue { q.(stats := q.stats.(invalidEip := q.stats.invalidEip + 1)) }

  function LogSample(a: Arch, q: Queue, pc: nat, event: nat, kernel: bool, task: Task): (Queue, bool) {
    var q := CountReceived(q);
    if pc == a.Escape() then (CountInvalid(q), false)
    else if q.Free() < 3 then (CountLost(q), false)
    else (EnqueueAll(q, NotedSample(a, q, pc, event, kernel, task))
            .(lastIsKernel := KernelFlag(kernel), lastTask := Some(task)), true)
  }

  function AddTrace(a: Arch, q: Queue, pc: nat): Queue {
    if !q.tracing then q
    else if q.Free() < 1 then CountLost(q.(tracing := false))
    else if pc == a.Escape() then CountAborted(q.(tracing := false))
    else Enqueue(q, OpSample(pc, 0, 0))
  }

  function AddTraces(a: Arch, q: Queue, chain: seq<nat>): Queue
    decreases |chain|
  {
    if chain == [] then q else AddTraces(a, AddTrace(a, q, chain[0]), chain[1..])
  }

  /** `backtrace` says whether a backtrace depth and a backtrace operation are both set,
    * which stays as it is while profiling runs. */
  function Handle(a: Arch, backtrace: bool, q: Queue, c: Call): Queue {
    match c
    case Stamp(kind, time) => Enqueue(q, Code(a, StampEvent(kind), time))
    case ExtSample(pc, event, kernel, task, chain) =>
      if !backtrace then LogSample(a, q, pc, event, kernel, task).0
      else if q.Free() < 4 then CountLost(q)
      else
        var (q1, ok) := LogSample(a, Enqueue(q, Code(a, CPU_TRACE_BEGIN, 0)).(tracing := true),
                                  pc, event, kernel, task);
        (if ok then AddTraces(a, q1, chain) else q1).(tracing := false)
  }

  function HandleAll(a: Arch, backtrace: bool, q: Queue, cs: seq<Call>): Queue
    decreases |cs|
  {
    if cs == [] then q else HandleAll(a, backtrace, Handle(a, backtrace, q, cs[0]), cs[1..])
  }

  function Dequeue(q: Queue): Queue
    requires q.pending != []
  {
    q.(pending := q.pending[1..])
  }

  /** The entries of the ring, by number. */
  lemma EntriesByNumber(a: Arch, q: Queue, pc: nat, event: nat, kernel: bool, task: Task, time: nat)
    ensures var escape := a.WordLimit() - 1;
            NotedSample(a, q, pc, event, kernel, task) ==
              (if kernel && q.lastIsKernel != 1 then [OpSample(escape, 1, 0)]
               else if !kernel && q.lastIsKernel != 0 then [OpSample(escape, 0, 0)] else [])
              + (if q.lastTask == Some(task) then []
                 else [OpSample(escape, 100, task.tgid), OpSample(escape, 101, task.pid)])
              + [OpSample(pc, event, 0)]
    ensures var escape := a.WordLimit() - 1;
            && Appended(a, false, q, Stamp(SamplingBegin, time)) == [OpSample(escape, 102, time)]
            && Appended(a, false, q, Stamp(SamplingEnd, time)) == [OpSample(escape, 103, time)]
            && Appended(a, false, q, Stamp(SampleBegin, time)) == [OpSample(escape, 104, time)]
            && Appended(a, false, q, Stamp(SampleEnd, time)) == [OpSample(escape, 105, time)]
  {
  }

  // ---- machine words ----

  predicate Storable(a: Arch, e: OpSample) {
    e.eip < a.WordLimit() && e.event < a.WordLimit() && e.timestamp < STAMP_LIMIT
  }

  predicate AllStorable(a: Arch, es: seq<OpSample>) {
    forall i :: 0 <= i < |es| ==> Storable(a, es[i])
  }

  /** What a call is given are words and timestamps. */
  predicate Sane(a: Arch, c: Call) {
    match c
    case Stamp(_, time) => time < STAMP_LIMIT
    case ExtSample(pc, event, _, task, chain) =>
      SaneSample(a, pc, event, task) && SaneChain(a, chain)
  }

  predicate SaneChain(a: Arch, chain: seq<nat>) {
    forall i :: 0 <= i < |chain| ==> chain[i] < a.WordLimit()
  }

  predicate SaneSample(a: Arch, pc: nat, event: nat, task: Task) {
    && pc < a.WordLimit() && event < a.WordLimit()
    && task.tgid < a.WordLimit() && task.pid < a.WordLimit()
  }

  predicate AllSane(a: Arch, calls: seq<Call>) {
    forall i :: 0 <= i < |calls| ==> Sane(a, calls[i])
  }

  // ---- when the queue is first-in first-out ----

  /** The slots log_sample fills for a sample it accepts. */
  function Needed(q: Queue, kernel: bool, task: Task): nat {
    1 + (if q.lastIsKernel != KernelFlag(kernel) then 1 else 0)
      + (if q.lastTask != Some(task) then 2 else 0)
  }

  /** Room for the slots that a call fills without checking. */
  predicate HasRoom(a: Arch, backtrace: bool, q: Queue, c: Call) {
    match c
    case Stamp(_, _) => q.Free() >= 1
    case ExtSample(pc, _, kernel, task, _) =>
      var free := if backtrace then q.Free() - 1 else q.Free();
      free < 3 || pc == a.Escape() || free >= Needed(q, kernel, task)
  }

  predicate AllHaveRoom(a: Arch, backtrace: bool, q: Queue, cs: seq<Call>)
    decreases |cs|
  {
    cs != [] ==> HasRoom(a, backtrace, q, cs[0])
                 && AllHaveRoom(a, backtrace, Handle(a, backtrace, q, cs[0]), cs[1..])
  }

  /** The pcs of `chain` that get into a ring with `free` slots: those before the first
    * escape value, as far as they fit. */
  function LoggedChain(a: Arch, chain: seq<nat>, free: nat): (l: seq<nat>)
    ensures l <= chain && |l| <= free && a.Escape() !in l
    ensures |l| < |chain| ==> |l| == free || chain[|l|] == a.Escape()
  {
    if chain == [] || free == 0 || chain[0] == a.Escape() then []
    else [chain[0]] + LoggedChain(a, chain[1..], free - 1)
  }

  function ChainEntries(chain: seq<nat>): (es: seq<OpSample>)
    ensures |es| == |chain| && forall i :: 0 <= i < |es| ==> es[i] == OpSample(chain[i], 0, 0)
  {
    seq(|chain|, i requires 0 <= i < |chain| => OpSample(chain[i], 0, 0))
  }

  /** Does the call get its sample into the ring? */
  predicate Accepted(a: Arch, backtrace: bool, q: Queue, c: Call) {
    c.ExtSample? && c.pc != a.Escape() && q.Free() >= if backtrace then 4 else 3
  }

  /** The chain that is logged behind an accepted sample. */
  function AcceptedChain(a: Arch, backtrace: bool, q: Queue, c: Call): seq<nat>
    requires c.ExtSample?
  {
    var free := q.Free() - 1 - Needed(q, c.kernel, c.task);
    if backtrace && free > 0 then LoggedChain(a, c.chain, free) else []
  }

  /** The entries a call is meant to append. */
  function Appended(a: Arch, backtrace: bool, q: Queue, c: Call): seq<OpSample> {
    match c
    case Stamp(kind, time) => [Code(a, StampEvent(kind), time)]
    case ExtSample(pc, event, kernel, task, _) =>
      (if backtrace && q.Free() >= 4 then [Code(a, CPU_TRACE_BEGIN, 0)] else []) +
      (if !Accepted(a, backtrace, q, c) then []
       else NotedSample(a, q, pc, event, kernel, task)
            + ChainEntries(AcceptedChain(a, backtrace, q, c)))
  }

  lemma StorableConcat(a: Arch, xs: seq<OpSample>, ys: seq<OpSample>)
    requires AllStorable(a, xs) && AllStorable(a, ys)
    ensures AllStorable(a, xs + ys)
  {
  }

  lemma AppendedStorable(a: Arch, bt: bool, q: Queue, c: Call)
    requires Sane(a, c)
    ensures AllStorable(a, Appended(a, bt, q, c))
  {
    if c.ExtSample? && Accepted(a, bt, q, c) {
      var noted, chain := NotedSample(a, q, c.pc, c.event, c.kernel, c.task), AcceptedChain(a, bt, q, c);
      var begin := if bt && q.Free() >= 4 then [Code(a, CPU_TRACE_BEGIN, 0)] else [];
      assert AllStorable(a, ChainEntries(chain)) by {
        assert chain <= c.chain;
        assert forall i :: 0 <= i < |chain| ==> chain[i] == c.chain[i];
      }
      StorableConcat(a, ModeNotes(a, q, c.kernel), TaskNotes(a, q, c.task));
      StorableConcat(a, ModeNotes(a, q, c.kernel) + TaskNotes(a, q, c.task), [OpSample(c.pc, c.event, 0)]);
      StorableConcat(a, noted, ChainEntries(chain));
      StorableConcat(a, begin, noted + ChainEntries(chain));
    }
  }

  lemma {:induction false} EnqueueAllFits(q: Queue, es: seq<OpSample>)
    requires |es| <= q.Free()
    ensures EnqueueAll(q, es) == q.(pending := q.pending + es)
    decreases |es|
  {
    if es == [] {
      assert q.pending + es == q.pending;
    } else {
      EnqueueAllFits(Enqueue(q, es[0]), es[1..]);
      assert q.pending + es == q.pending + [es[0]] + es[1..];
    }
  }

  /** One entry too many and everything in the ring is gone. */
  lemma {:induction false} EnqueueAllOverruns(q: Queue, es: seq<OpSample>)
    requires |es| == q.Free() + 1 && es != []
    ensures EnqueueAll(q, es) == q.(pending := [])
    decreases |es|
  {
    if |es| > 1 {
      EnqueueAllOverruns(Enqueue(q, es[0]), es[1..]);
    } else {
      assert EnqueueAll(Enqueue(q, es[0]), es[1..]) == Enqueue(q, es[0]);
    }
  }

  lemma {:induction false} AddTracesFits(a: Arch, q: Queue, chain: seq<nat>)
    requires q.Free() >= 0
    ensures var q' := AddTraces(a, q, chain);
            && q'.pending == q.pending + (if q.tracing then ChainEntries(LoggedChain(a, chain, q.Free())) else [])
            && q'.Free() >= 0
            && q'.(pending := q.pending, tracing := q.tracing, stats := q.stats) == q
    decreases |chain|
  {
    if chain != [] {
      var q1 := AddTrace(a, q, chain[0]);
      AddTracesFits(a, q1, chain[1..]);
      if q1.tracing {
        LoggedChainStep(a, q, chain);
      } else if q.tracing {
        assert LoggedChain(a, chain, q.Free()) == [];
      }
    }
  }

  lemma ChainEntriesSplit(chain: seq<nat>)
    requires chain != []
    ensures ChainEntries(chain) == [OpSample(chain[0], 0, 0)] + ChainEntries(chain[1..])
  {
  }

  lemma ChainEntriesCons(pending: seq<OpSample>, pc: nat, rest: seq<nat>)
    ensures pending + ChainEntries([pc] + rest) == pending + [OpSample(pc, 0, 0)] + ChainEntries(rest)
  {
  }

  lemma LoggedChainStep(a: Arch, q: Queue, chain: seq<nat>)
    requires chain != [] && q.Free() > 0 && chain[0] != a.Escape()
    ensures q.pending + ChainEntries(LoggedChain(a, chain, q.Free()))
         == q.pending + [OpSample(chain[0], 0, 0)] + ChainEntries(LoggedChain(a, chain[1..], q.Free() - 1))
  {
    var rest := LoggedChain(a, chain[1..], q.Free() - 1);
    assert LoggedChain(a, chain, q.Free()) == [chain[0]] + rest;
    ChainEntriesCons(q.pending, chain[0], rest);
  }

  /** Logging an accepted sample: first-in first-out with room, and an empty-looking ring
    * in the one case without. */
  lemma LogSampleQueues(a: Arch, q: Queue, pc: nat, event: nat, kernel: bool, task: Task)
    requires pc != a.Escape() && q.Free() >= 3
    ensures var (q', ok) := LogSample(a, q, pc, event, kernel, task);
            && ok && q'.size == q.size && q'.tracing == q.tracing
            && q'.lastIsKernel == KernelFlag(kernel) && q'.lastTask == Some(task)
            && q'.stats == CountReceived(q).stats
            && q'.pending == if Needed(q, kernel, task) <= q.Free()
                             then q.pending + NotedSample(a, q, pc, event, kernel, task) else []
  {
    var q0 := CountReceived(q);
    var es := NotedSample(a, q0, pc, event, kernel, task);
    assert es == NotedSample(a, q, pc, event, kernel, task);
    if |es| <= q.Free() {
      EnqueueAllFits(q0, es);
    } else {
      EnqueueAllOverruns(q0, es);
    }
  }

  /** A producer call with room appends its entries and disturbs nothing already queued. */
  ghost predicate Appends(a: Arch, backtrace: bool, q: Queue, c: Call) {
    var q' := Handle(a, backtrace, q, c);
    && q'.pending == q.pending + Appended(a, backtrace, q, c)
    && q'.Free() >= 0 && q'.size == q.size
    && q'.tracing == (q.tracing && !(c.ExtSample? && backtrace && q.Free() >= 4))
    && (if Accepted(a, backtrace, q, c)
        then q'.lastIsKernel == KernelFlag(c.kernel) && q'.lastTask == Some(c.task)
        else q'.lastIsKernel == q.lastIsKernel && q'.lastTask == q.lastTask)
  }

  /** An accepted traced sample, phase by phase. */
  lemma TracePhases(a: Arch, q: Queue, c: Call) returns (q1: Queue)
    requires q.Free() >= 0 && HasRoom(a, true, q, c) && Accepted(a, true, q, c)
    ensures Handle(a, true, q, c) == AddTraces(a, q1, c.chain).(tracing := false)
    ensures q1.tracing && q1.size == q.size && q1.stats == CountReceived(q).stats
    ensures q1.lastIsKernel == KernelFlag(c.kernel) && q1.lastTask == Some(c.task)
    ensures q1.pending == q.pending + [Code(a, CPU_TRACE_BEGIN, 0)]
                          + NotedSample(a, q, c.pc, c.event, c.kernel, c.task)
  {
    var q0 := Enqueue(q, Code(a, CPU_TRACE_BEGIN, 0)).(tracing := true);
    LogSampleQueues(a, q0, c.pc, c.event, c.kernel, c.task);
    assert NotedSample(a, q, c.pc, c.event, c.kernel, c.task)
        == NotedSample(a, q0, c.pc, c.event, c.kernel, c.task);
    q1 := LogSample(a, q0, c.pc, c.event, c.kernel, c.task).0;
  }

  lemma AppendedTrace(a: Arch, q: Queue, c: Call)
    requires Accepted(a, true, q, c)
    ensures Appended(a, true, q, c)
         == [Code(a, CPU_TRACE_BEGIN, 0)] + (NotedSample(a, q, c.pc, c.event, c.kernel, c.task)
                                            + ChainEntries(AcceptedChain(a, true, q, c)))
    ensures |NotedSample(a, q, c.pc, c.event, c.kernel, c.task)| == Needed(q, c.kernel, c.task)
  {
  }

  lemma TraceAppends(a: Arch, q: Queue, c: Call)
    requires q.Free() >= 0 && HasRoom(a, true, q, c) && Accepted(a, true, q, c)
    ensures Appends(a, true, q, c)
  {
    var q1 := TracePhases(a, q, c);
    AddTracesFits(a, q1, c.chain);
    AppendedTrace(a, q, c);
    var noted := NotedSample(a, q, c.pc, c.event, c.kernel, c.task);
    var chain := ChainEntries(AcceptedChain(a, true, q, c));
    AssocFour(q.pending, [Code(a, CPU_TRACE_BEGIN, 0)], noted, chain);
    var l := LoggedChain(a, c.chain, q1.Free());
    assert q1.Free() == q.Free() - 1 - |noted|;
    assert l == AcceptedChain(a, true, q, c);
  }

  lemma PlainAppends(a: Arch, q: Queue, c: Call)
    requires q.Free() >= 0 && HasRoom(a, false, q, c) && Accepted(a, false, q, c)
    ensures Appends(a, false, q, c)
  {
    LogSampleQueues(a, q, c.pc, c.event, c.kernel, c.task);
    assert Appended(a, false, q, c) == NotedSample(a, q, c.pc, c.event, c.kernel, c.task);
  }

  lemma HandleAppends(a: Arch, backtrace: bool, q: Queue, c: Call)
    requires q.Free() >= 0 && HasRoom(a, backtrace, q, c)
    ensures Appends(a, backtrace, q, c)
  {
    if Accepted(a, backtrace, q, c) {
      if backtrace {
        TraceAppends(a, q, c);
      } else {
        PlainAppends(a, q, c);
      }
    }
  }

  /** The capacity bound is exact: a call is first-in first-out if and only if it has room.
    * For a sample the failing case is a single one: exactly three free slots at log_sample
    * (four before a trace) when both mode and process have changed. */
  lemma FifoIffRoom(a: Arch, backtrace: bool, q: Queue, c: Call)
    requires q.Free() >= 0
    ensures Handle(a, backtrace, q, c).pending == q.pending + Appended(a, backtrace, q, c)
            <==> HasRoom(a, backtrace, q, c)
    ensures c.ExtSample? ==>
            (HasRoom(a, backtrace, q, c) <==>
              !(&& c.pc != a.Escape() && q.Free() == (if backtrace then 4 else 3)
                && q.lastIsKernel != KernelFlag(c.kernel) && q.lastTask != Some(c.task)))
  {
    if HasRoom(a, backtrace, q, c) {
      HandleAppends(a, backtrace, q, c);
    } else if c.ExtSample? {
      var q0 := if backtrace then Enqueue(q, Code(a, CPU_TRACE_BEGIN, 0)).(tracing := true) else q;
      LogSampleQueues(a, q0, c.pc, c.event, c.kernel, c.task);
      if backtrace {
        AddTracesFits(a, LogSample(a, q0, c.pc, c.event, c.kernel, c.task).0, c.chain);
      }
    }
  }

  /** A fresh ring of four slots loses its first sample: three are free, and both mode and
    * process are news. */
  lemma FirstSampleCanVanish(a: Arch)
    ensures var q := Queue([], 4, -1, None, false, Stats(0, 0, 0, 0));
            var c := ExtSample(7, 0, true, Task(1, 1, 1), []);
            && Accepted(a, false, q, c) && !HasRoom(a, false, q, c)
            && Handle(a, false, q, c).pending == []
            && Handle(a, false, q, c).stats == Stats(1, 0, 0, 0)
  {
    LogSampleQueues(a, Queue([], 4, -1, None, false, Stats(0, 0, 0, 0)), 7, 0, true, Task(1, 1, 1));
  }

  /** The slots that an accepted sample leaves for its callers: none of those that were
    * pending are in the way once the ring has been overrun. */
  function LeftForChain(a: Arch, backtrace: bool, q: Queue, c: Call): int
    requires c.ExtSample?
  {
    if HasRoom(a, backtrace, q, c) then q.Free() - (if backtrace then 1 else 0) - Needed(q, c.kernel, c.task)
    else q.size - 1
  }

  /** The pcs of the callers that are logged. */
  function KeptChain(a: Arch, backtrace: bool, q: Queue, c: Call): seq<nat>
    requires c.ExtSample?
  {
    var free := LeftForChain(a, backtrace, q, c);
    if backtrace && free > 0 then LoggedChain(a, c.chain, free) else []
  }

  /** Every call to log a sample raises one count, unless it is logged with its whole chain:
    * as invalid, as lost, or with an aborted or a cut trace. Room makes no difference to
    * the counts - and so, without room, the sample and all that was pending vanish
    * uncounted, and only callers remain. */
  lemma EverySampleIsCounted(a: Arch, backtrace: bool, q: Queue, c: Call)
    requires q.Free() >= 0 && c.ExtSample?
    ensures var s, s' := q.stats, Handle(a, backtrace, q, c).stats;
            var cut := backtrace && |KeptChain(a, backtrace, q, c)| < |c.chain|;
            s'.lostOverflow + s'.aborted + s'.invalidEip
            == s.lostOverflow + s.aborted + s.invalidEip
               + (if Accepted(a, backtrace, q, c) && !cut then 0 else 1)
    ensures !HasRoom(a, backtrace, q, c) ==>
              Handle(a, backtrace, q, c).pending == ChainEntries(KeptChain(a, backtrace, q, c))
  {
    if Accepted(a, backtrace, q, c) {
      if backtrace {
        TraceIsCounted(a, q, c);
      } else {
        LogSampleQueues(a, q, c.pc, c.event, c.kernel, c.task);
      }
    }
  }

  /** Which count each refusal raises: a trace that finds fewer than 4 slots, or a sample that
    * finds fewer than 3, is lost; a sample with the escape value for a pc is invalid; a caller
    * that finds no slot is a loss too, and one with the escape value aborts its trace. Every
    * sample that gets as far as log_sample is received. */
  lemma CountsExactly(a: Arch, backtrace: bool, q: Queue, c: Call)
    requires q.Free() >= 0 && c.ExtSample?
    ensures var s, s' := q.stats, Handle(a, backtrace, q, c).stats;
            var invalid := c.pc == a.WordLimit() - 1;
            var unbegun := backtrace && q.Free() < 4;
            var cut := Accepted(a, backtrace, q, c) && backtrace && |KeptChain(a, backtrace, q, c)| < |c.chain|;
            var full := |KeptChain(a, backtrace, q, c)| == LeftForChain(a, backtrace, q, c);
            && s'.received == s.received + (if unbegun then 0 else 1)
            && s'.invalidEip == s.invalidEip + (if !unbegun && invalid then 1 else 0)
            && s'.aborted == s.aborted + (if cut && !full then 1 else 0)
            && s'.lostOverflow == s.lostOverflow
               + (if unbegun || (!invalid && q.Free() < 3) || (cut && full) then 1 else 0)
    ensures Accepted(a, backtrace, q, c)
            <==> c.pc != a.WordLimit() - 1 && q.Free() >= (if backtrace then 4 else 3)
  {
    if Accepted(a, backtrace, q, c) {
      if backtrace {
        TraceIsCounted(a, q, c);
      } else {
        LogSampleQueues(a, q, c.pc, c.event, c.kernel, c.task);
      }
    }
  }

  /** The ring when an accepted traced sample has been logged, with room or without. */
  lemma TraceLogged(a: Arch, q: Queue, c: Call) returns (q1: Queue)
    requires q.Free() >= 0 && c.ExtSample? && Accepted(a, true, q, c)
    ensures Handle(a, true, q, c) == AddTraces(a, q1, c.chain).(tracing := false)
    ensures q1.tracing && q1.stats == CountReceived(q).stats && q1.Free() == LeftForChain(a, true, q, c)
    ensures !HasRoom(a, true, q, c) ==> q1.pending == []
  {
    var q0 := Enqueue(q, Code(a, CPU_TRACE_BEGIN, 0)).(tracing := true);
    LogSampleQueues(a, q0, c.pc, c.event, c.kernel, c.task);
    q1 := LogSample(a, q0, c.pc, c.event, c.kernel, c.task).0;
    assert |NotedSample(a, q0, c.pc, c.event, c.kernel, c.task)| == Needed(q, c.kernel, c.task);
  }

  lemma TraceIsCounted(a: Arch, q: Queue, c: Call)
    requires q.Free() >= 0 && c.ExtSample? && Accepted(a, true, q, c)
    ensures var s, s' := q.stats, Handle(a, true, q, c).stats;
            var kept, free := |KeptChain(a, true, q, c)|, LeftForChain(a, true, q, c);
            && s'.received == s.received + 1 && s'.invalidEip == s.invalidEip
            && s'.lostOverflow == s.lostOverflow + (if kept < |c.chain| && kept == free then 1 else 0)
            && s'.aborted == s.aborted + (if kept < |c.chain| && kept < free then 1 else 0)
    ensures !HasRoom(a, true, q, c) ==> Handle(a, true, q, c).pending == ChainEntries(KeptChain(a, true, q, c))
  {
    var q1 := TraceLogged(a, q, c);
    AddTracesCounts(a, q1, c.chain);
    AddTracesFits(a, q1, c.chain);
  }

  lemma {:induction false} AddTracesCounts(a: Arch, q: Queue, chain: seq<nat>)
    requires q.Free() >= 0
    ensures var s, s' := q.stats, AddTraces(a, q, chain).stats;
            var kept := |LoggedChain(a, chain, q.Free())|;
            && s'.received == s.received && s'.invalidEip == s.invalidEip
            && s'.lostOverflow == s.lostOverflow + (if q.tracing && kept < |chain| && kept == q.Free() then 1 else 0)
            && s'.aborted == s.aborted + (if q.tracing && kept < |chain| && kept < q.Free() then 1 else 0)
    decreases |chain|
  {
    if chain != [] {
      AddTracesCounts(a, AddTrace(a, q, chain[0]), chain[1..]);
    }
  }
}
