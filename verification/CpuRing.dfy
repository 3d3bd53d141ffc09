/** The ring as the driver keeps it: an array with a head position that only producers move
  * and a tail position that only the consumer moves (driver/cpu_buffer.c,
  * driver/buffer_sync.c). Every method is proved against the queue functions of
  * `CpuBuffer`, with no assumption about free slots. `writes` has all that was ever
  * written, and the array holds the end of it, overrun or not. */
module CpuRing {
  import opened Wrappers
  import opened EventStream
  import opened CpuBuffer
  import opened Numbers

  /** The position `n` slots on, in a ring of `size` slots. */
  function Advance(pos: nat, n: nat, size: nat): int {
    if pos + n < size then pos + n else pos + n - size
  }

  // ---- the slots ----

  /** The slots hold what was last written to them, one after the other all around. */
  ghost predicate HoldsLast(slots: seq<OpSample>, writes: seq<OpSample>) {
    slots != [] && forall i :: 0 <= i < |writes| && |writes| - i <= |slots| ==> slots[i % |slots|] == writes[i]
  }

  lemma WriteHoldsLast(slots: seq<OpSample>, writes: seq<OpSample>, e: OpSample)
    requires HoldsLast(slots, writes)
    ensures HoldsLast(slots[|writes| % |slots| := e], writes + [e])
  {
    var n := |writes|;
    forall i | 0 <= i < n && n + 1 - i <= |slots|
      ensures i % |slots| != n % |slots|
    {
      ModDiffers(i, n, |slots|);
    }
  }

  lemma ModDiffers(i: nat, n: nat, size: nat)
    requires i < n < i + size
    ensures i % size != n % size
  {
    assert i == size * (i / size) + i % size && n == size * (n / size) + n % size;
    if i % size == n % size {
      assert n - i == size * (n / size - i / size);
      MultipleIsFar(size, n / size - i / size);
    }
  }

  /** The slot of the `v`-th write holds that one, or one a number of rounds later. */
  lemma {:induction false} SlotHolds(slots: seq<OpSample>, writes: seq<OpSample>, v: nat) returns (k: nat)
    requires HoldsLast(slots, writes) && v < |writes|
    ensures v <= k < |writes| && k % |slots| == v % |slots|
    ensures slots[v % |slots|] == writes[k]
    decreases |writes| - v
  {
    if |writes| - v <= |slots| {
      k := v;
    } else {
      k := SlotHolds(slots, writes, v + |slots|);
      ModRound(v, |slots|);
    }
  }

  lemma ModRound(v: nat, size: nat)
    requires size > 0
    ensures (v + size) % size == v % size
  {
    assert v + size == size * (v / size + 1) + v % size;
    DivIs(v + size, size, v / size + 1, v % size);
  }

  predicate StorableAll(a: Arch, es: seq<OpSample>) {
    es == [] || (StorableAll(a, es[..|es| - 1]) && Storable(a, es[|es| - 1]))
  }

  lemma StorableOneMore(a: Arch, es: seq<OpSample>, e: OpSample)
    ensures StorableAll(a, es + [e]) <==> StorableAll(a, es) && Storable(a, e)
  {
    assert (es + [e])[..|es|] == es;
  }

  lemma {:induction false} StorableAllOf(a: Arch, es: seq<OpSample>)
    requires StorableAll(a, es)
    ensures AllStorable(a, es)
  {
    if es != [] {
      StorableAllOf(a, es[..|es| - 1]);
    }
  }

  /** Calls have written, and if what they were given are words, so is all that is written. */
  ghost predicate Wrote(a: Arch, before: seq<OpSample>, writes: seq<OpSample>, sane: bool) {
    before <= writes && (StorableAll(a, before) && sane ==> StorableAll(a, writes))
  }

  class Ring {
    const arch: Arch
    const buffer: array<OpSample>
    var headPos: nat
    var tailPos: nat
    var lastTask: Option<Task>
    var lastIsKernel: int
    var tracing: bool
    var sampleReceived: nat
    var sampleLostOverflow: nat
    var backtraceAborted: nat
    var sampleInvalidEip: nat
    ghost var writes: seq<OpSample>

    ghost predicate Valid()
      reads this, buffer
    {
      && headPos < buffer.Length && tailPos < buffer.Length
      && headPos == |writes| % buffer.Length && HoldsLast(buffer[..], writes)
    }

    /** The entries between tail and head. */
    ghost function Pending(): seq<OpSample>
      reads this, buffer
      requires Valid()
    {
      if tailPos <= headPos then buffer[tailPos..headPos] else buffer[tailPos..] + buffer[..headPos]
    }

    ghost function Abs(): (q: Queue)
      reads this, buffer
      requires Valid()
      ensures q.Free() >= 0
    {
      Queue(Pending(), buffer.Length, lastIsKernel, lastTask, tracing,
            CpuBuffer.Stats(sampleReceived, sampleLostOverflow, backtraceAborted, sampleInvalidEip))
    }

    constructor (a: Arch, size: nat)
      requires size > 0
      ensures Valid() && fresh(buffer) && arch == a && writes == [] && tailPos == 0
      ensures Abs() == Queue([], size, -1, None, false, CpuBuffer.Stats(0, 0, 0, 0))
    {
      arch := a;
      buffer := new OpSample[size](_ => OpSample(0, 0, 0));
      headPos, tailPos := 0, 0;
      lastTask, lastIsKernel, tracing := None, -1, false;
      sampleReceived, sampleLostOverflow, backtraceAborted, sampleInvalidEip := 0, 0, 0, 0;
      writes := [];
    }

    /** The producers' view of the room left, and with `Slots` the invariant that used and
      * free slots always make up the ring but for one slot. */
    function NrAvailableSlots(): (n: nat)
      reads this, buffer
      requires Valid()
      ensures n == Abs().Free()
      ensures n + Slots(headPos) == buffer.Length - 1
    {
      if tailPos > headPos then tailPos - headPos - 1 else tailPos + (buffer.Length - headPos) - 1
    }

    /** The consumer's count of the entries up to a head position it has read. */
    function Slots(head: nat): nat
      reads this, buffer
      requires Valid() && head < buffer.Length
    {
      if head >= tailPos then head - tailPos else head + (buffer.Length - tailPos)
    }

    method AddSample(e: OpSample)
      requires Valid()
      modifies this`headPos, this`writes, buffer
      ensures Valid() && writes == old(writes) + [e]
      ensures Wrote(arch, old(writes), writes, Storable(arch, e))
      ensures Abs() == Enqueue(old(Abs()), e)
    {
      ghost var was := Pending();
      WriteHoldsLast(buffer[..], writes, e);
      StorableOneMore(arch, writes, e);
      DivStep(|writes|, buffer.Length);
      writes := writes + [e];
      buffer[headPos] := e;
      var newHead := headPos + 1;
      if newHead < buffer.Length {
        headPos := newHead;
      } else {
        headPos := 0;
      }
      if headPos != tailPos {
        assert Pending() == was + [e];
      }
    }

    /** Note a switch between user and kernel mode. */
    method NoteMode(kernel: bool)
      requires Valid()
      modifies this`headPos, this`writes, this`lastIsKernel, buffer
      ensures Valid() && writes == old(writes) + ModeNotes(arch, old(Abs()), kernel)
      ensures Abs() == EnqueueAll(old(Abs()), ModeNotes(arch, old(Abs()), kernel)).(lastIsKernel := KernelFlag(kernel))
    {
      var isKernel := if kernel then 1 else 0;
      if lastIsKernel != isKernel {
        lastIsKernel := isKernel;
        AddSample(Code(arch, isKernel, 0));
      }
    }

    /** Note a task switch. */
    method NoteTask(task: Task)
      requires Valid()
      modifies this`headPos, this`writes, this`lastTask, buffer
      ensures Valid() && writes == old(writes) + TaskNotes(arch, old(Abs()), task)
      ensures Abs() == EnqueueAll(old(Abs()), TaskNotes(arch, old(Abs()), task)).(lastTask := Some(task))
    {
      if lastTask != Some(task) {
        lastTask := Some(task);
        AddSample(Code(arch, RR_CPU_CTX_TGID, task.tgid));
        AddSample(Code(arch, RR_CPU_CTX_TID, task.pid));
        EnqueueTwo(old(Abs()), Code(arch, RR_CPU_CTX_TGID, task.tgid), Code(arch, RR_CPU_CTX_TID, task.pid));
      }
    }

    method LogSample(pc: nat, event: nat, kernel: bool, task: Task) returns (ok: bool)
      requires Valid()
      modifies this, buffer
      ensures Valid() && tailPos == old(tailPos)
      ensures Wrote(arch, old(writes), writes, SaneSample(arch, pc, event, task))
      ensures (Abs(), ok) == CpuBuffer.LogSample(arch, old(Abs()), pc, event, kernel, task)
    {
      sampleReceived := sampleReceived + 1;
      if pc == arch.Escape() {
        sampleInvalidEip := sampleInvalidEip + 1;
        return false;
      }
      if NrAvailableSlots() < 3 {
        sampleLostOverflow := sampleLostOverflow + 1;
        return false;
      }
      LogAccepted(pc, event, kernel, task);
      LogSampleInSteps(arch, old(Abs()), pc, event, kernel, task);
      return true;
    }

    /** Notes and sample. */
    method LogAccepted(pc: nat, event: nat, kernel: bool, task: Task)
      requires Valid()
      modifies this`headPos, this`writes, this`lastIsKernel, this`lastTask, buffer
      ensures Valid() && Wrote(arch, old(writes), writes, SaneSample(arch, pc, event, task))
      ensures var r := old(Abs());
              var m := EnqueueAll(r, ModeNotes(arch, r, kernel)).(lastIsKernel := KernelFlag(kernel));
              var t := EnqueueAll(m, TaskNotes(arch, m, task)).(lastTask := Some(task));
              Abs() == Enqueue(t, OpSample(pc, event, 0))
    {
      NoteMode(kernel);
      ghost var m := Abs();
      NoteTask(task);
      AddSample(OpSample(pc, event, 0));
      SampleWrote(arch, old(Abs()), m, old(writes), pc, event, kernel, task);
    }

    method BeginTrace() returns (ok: bool)
      requires Valid()
      modifies this, buffer
      ensures Valid() && tailPos == old(tailPos) && Wrote(arch, old(writes), writes, true)
      ensures ok <==> old(Abs()).Free() >= 4
      ensures Abs() == if ok then Enqueue(old(Abs()), Code(arch, CPU_TRACE_BEGIN, 0)).(tracing := true)
                       else CountLost(old(Abs()))
    {
      if NrAvailableSlots() < 4 {
        sampleLostOverflow := sampleLostOverflow + 1;
        return false;
      }
      AddSample(Code(arch, CPU_TRACE_BEGIN, 0));
      tracing := true;
      return true;
    }

    method AddTrace(pc: nat)
      requires Valid()
      modifies this, buffer
      ensures Valid() && tailPos == old(tailPos) && Wrote(arch, old(writes), writes, pc < arch.WordLimit())
      ensures Abs() == CpuBuffer.AddTrace(arch, old(Abs()), pc)
    {
      if !tracing {
        return;
      }
      if NrAvailableSlots() < 1 {
        tracing := false;
        sampleLostOverflow := sampleLostOverflow + 1;
        return;
      }
      if pc == arch.Escape() {
        tracing := false;
        backtraceAborted := backtraceAborted + 1;
        return;
      }
      AddSample(OpSample(pc, 0, 0));
    }

    /** One producer call; the backtrace operation offers the pcs of the call's chain. */
    method Handle(backtrace: bool, c: Call)
      requires Valid()
      modifies this, buffer
      ensures Valid() && tailPos == old(tailPos) && Wrote(arch, old(writes), writes, Sane(arch, c))
      ensures Abs() == CpuBuffer.Handle(arch, backtrace, old(Abs()), c)
    {
      match c {
        case Stamp(kind, time) => LogStamp(kind, time);
        case ExtSample(pc, event, kernel, task, chain) =>
          if backtrace {
            TraceSample(pc, event, kernel, task, chain);
          } else {
            var _ := LogSample(pc, event, kernel, task);
          }
      }
    }

    /** A start or stop timestamp, with no look at the room left. */
    method LogStamp(kind: StampKind, time: nat)
      requires Valid()
      modifies this`headPos, this`writes, buffer
      ensures Valid() && Wrote(arch, old(writes), writes, time < STAMP_LIMIT)
      ensures Abs() == Enqueue(old(Abs()), Code(arch, StampEvent(kind), time))
    {
      AddSample(Code(arch, StampEvent(kind), time));
    }

    /** A sample with a backtrace. */
    method TraceSample(pc: nat, event: nat, kernel: bool, task: Task, chain: seq<nat>)
      requires Valid()
      modifies this, buffer
      ensures Valid() && tailPos == old(tailPos)
      ensures Wrote(arch, old(writes), writes, SaneSample(arch, pc, event, task) && SaneChain(arch, chain))
      ensures Abs() == CpuBuffer.Handle(arch, true, old(Abs()), ExtSample(pc, event, kernel, task, chain))
    {
      var ok := BeginTrace();
      if !ok {
        return;
      }
      ok := LogSample(pc, event, kernel, task);
      if ok {
        WalkChain(chain);
      }
      tracing := false;
    }

    /** The backtrace operation. */
    method WalkChain(chain: seq<nat>)
      requires Valid()
      modifies this, buffer
      ensures Valid() && tailPos == old(tailPos)
      ensures Wrote(arch, old(writes), writes, SaneChain(arch, chain))
      ensures Abs() == AddTraces(arch, old(Abs()), chain)
    {
      for i := 0 to |chain|
        invariant Valid() && tailPos == old(tailPos)
        invariant Wrote(arch, old(writes), writes, SaneChain(arch, chain))
        invariant AddTraces(arch, Abs(), chain[i..]) == AddTraces(arch, old(Abs()), chain)
      {
        AddTrace(chain[i]);
        assert chain[i..][1..] == chain[i + 1..];
      }
    }

    /** The producer calls that land between two steps of the consumer. */
    method Interrupts(backtrace: bool, calls: seq<Call>)
      requires Valid()
      modifies this, buffer
      ensures Valid() && tailPos == old(tailPos) && Wrote(arch, old(writes), writes, AllSane(arch, calls))
      ensures Abs() == HandleAll(arch, backtrace, old(Abs()), calls)
    {
      for i := 0 to |calls|
        invariant Valid() && tailPos == old(tailPos) && Wrote(arch, old(writes), writes, AllSane(arch, calls))
        invariant HandleAll(arch, backtrace, Abs(), calls[i..]) == HandleAll(arch, backtrace, old(Abs()), calls)
      {
        Handle(backtrace, calls[i]);
        assert calls[i..][1..] == calls[i + 1..];
      }
    }

    method ResetLastIsKernel()
      requires Valid()
      modifies this`lastIsKernel
      ensures Valid() && Abs() == old(Abs()).(lastIsKernel := -1)
    {
      lastIsKernel := -1;
    }

    method ResetLastTask()
      requires Valid()
      modifies this`lastTask
      ensures Valid() && Abs() == old(Abs()).(lastTask := None)
    {
      lastTask := None;
    }

    /** The entry at the tail. */
    method Front() returns (e: OpSample)
      requires Valid()
      ensures e == buffer[tailPos] && (Pending() != [] ==> e == Pending()[0])
    {
      e := buffer[tailPos];
    }

    /** Move the tail on. A ring that looks empty then looks full. */
    method IncrementTail()
      requires Valid()
      modifies this`tailPos
      ensures Valid() && tailPos == Advance(old(tailPos), 1, buffer.Length)
      ensures old(Pending()) != [] ==> Abs() == Dequeue(old(Abs()))
      ensures old(Pending()) == [] ==> Abs().Free() == 0
    {
      var newTail := tailPos + 1;
      if newTail < buffer.Length {
        tailPos := newTail;
      } else {
        tailPos := 0;
      }
    }
  }

  lemma SampleWrote(a: Arch, q: Queue, m: Queue, before: seq<OpSample>, pc: nat, event: nat, kernel: bool, task: Task)
    ensures Wrote(a, before, before + ModeNotes(a, q, kernel) + TaskNotes(a, m, task) + [OpSample(pc, event, 0)],
                  SaneSample(a, pc, event, task))
  {
    var mode, tgid, tid := Code(a, KernelFlag(kernel), 0), Code(a, RR_CPU_CTX_TGID, task.tgid),
                           Code(a, RR_CPU_CTX_TID, task.pid);
    var noted := before + ModeNotes(a, q, kernel);
    StorableOneMore(a, before, mode);
    assert noted == before || noted == before + [mode];
    StorableOneMore(a, noted, tgid);
    StorableOneMore(a, noted + [tgid], tid);
    assert noted + TaskNotes(a, m, task) == noted || noted + TaskNotes(a, m, task) == noted + [tgid] + [tid];
    StorableOneMore(a, noted + TaskNotes(a, m, task), OpSample(pc, event, 0));
  }

  lemma EnqueueTwo(q: Queue, d: OpSample, e: OpSample)
    ensures EnqueueAll(q, [d, e]) == Enqueue(Enqueue(q, d), e)
  {
    assert [d, e][1..] == [e] && [e][1..] == [];
    assert EnqueueAll(Enqueue(q, d), [e]) == EnqueueAll(Enqueue(Enqueue(q, d), e), []);
  }

  lemma {:induction false} EnqueueAllConcat(q: Queue, xs: seq<OpSample>, ys: seq<OpSample>)
    ensures EnqueueAll(EnqueueAll(q, xs), ys) == EnqueueAll(q, xs + ys)
    decreases |xs|
  {
    if xs == [] {
      assert xs + ys == ys;
    } else {
      var q1 := Enqueue(q, xs[0]);
      EnqueueAllConcat(q1, xs[1..], ys);
      assert (xs + ys)[0] == xs[0] && (xs + ys)[1..] == xs[1..] + ys;
      assert EnqueueAll(q, xs + ys) == EnqueueAll(q1, xs[1..] + ys);
    }
  }

  /** The fields that notes are decided by play no part in queueing. */
  lemma {:induction false} EnqueueAllFrame(q: Queue, xs: seq<OpSample>, mode: int, task: Option<Task>)
    ensures EnqueueAll(q.(lastIsKernel := mode, lastTask := task), xs)
         == EnqueueAll(q, xs).(lastIsKernel := mode, lastTask := task)
    ensures EnqueueAll(q, xs).lastIsKernel == q.lastIsKernel && EnqueueAll(q, xs).lastTask == q.lastTask
    decreases |xs|
  {
    if xs != [] {
      EnqueueAllFrame(Enqueue(q, xs[0]), xs[1..], mode, task);
    }
  }

  lemma LogSampleInSteps(a: Arch, q: Queue, pc: nat, event: nat, kernel: bool, task: Task)
    requires pc != a.Escape() && q.Free() >= 3
    ensures var r := CountReceived(q);
            var m := EnqueueAll(r, ModeNotes(a, r, kernel)).(lastIsKernel := KernelFlag(kernel));
            var t := EnqueueAll(m, TaskNotes(a, m, task)).(lastTask := Some(task));
            CpuBuffer.LogSample(a, q, pc, event, kernel, task) == (Enqueue(t, OpSample(pc, event, 0)), true)
  {
    var r := CountReceived(q);
    var mode, switch, sample := ModeNotes(a, r, kernel), TaskNotes(a, r, task), [OpSample(pc, event, 0)];
    EnqueueAllFrame(r, mode, 0, None);
    EnqueueAllFrame(EnqueueAll(r, mode), switch, KernelFlag(kernel), r.lastTask);
    EnqueueAllConcat(r, mode, switch);
    EnqueueAllConcat(r, mode + switch, sample);
    assert EnqueueAll(Enqueue(EnqueueAll(r, mode + switch), sample[0]), sample[1..])
        == Enqueue(EnqueueAll(r, mode + switch), sample[0]);
  }
}
