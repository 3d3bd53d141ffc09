/** sync_buffer in place: the loop over a ring and an event buffer, with producer calls
  * landing between any two of its steps. */
module SyncBuffer {
  import opened Sequences
  import opened Wrappers
  import opened EventStream
  import opened CpuBuffer
  import opened BufferSync
  import opened EventBuffer
  import opened CpuRing
  import opened Numbers

  /** The producer calls that land before the consumer's k-th step. */
  type Schedule = nat -> seq<Call>

  // ---- the queue as the consumer's steps and the scheduled calls leave it ----

  function AtHeadRead(a: Arch, bt: bool, q: Queue, irq: Schedule): Queue {
    HandleAll(a, bt, q, irq(0))
  }

  function AfterModeReset(a: Arch, bt: bool, q: Queue, irq: Schedule): Queue {
    HandleAll(a, bt, AtHeadRead(a, bt, q, irq), irq(1)).(lastIsKernel := -1)
  }

  function AfterTaskReset(a: Arch, bt: bool, q: Queue, irq: Schedule): Queue {
    HandleAll(a, bt, AfterModeReset(a, bt, q, irq), irq(2)).(lastTask := None)
  }

  function AfterDrain(a: Arch, bt: bool, q: Queue, irq: Schedule, k: nat, n: nat): Queue
    decreases n
  {
    var q' := HandleAll(a, bt, q, irq(k));
    if n == 0 || q'.pending == [] then q' else AfterDrain(a, bt, Dequeue(q'), irq, k + 1, n - 1)
  }

  predicate DrainHasRoom(a: Arch, bt: bool, q: Queue, irq: Schedule, k: nat, n: nat)
    decreases n
  {
    && AllHaveRoom(a, bt, q, irq(k))
    && var q' := HandleAll(a, bt, q, irq(k));
       (n > 0 && q'.pending != [] ==> DrainHasRoom(a, bt, Dequeue(q'), irq, k + 1, n - 1))
  }

  /** Every scheduled call finds the room it takes without checking. */
  predicate ScheduleHasRoom(a: Arch, bt: bool, q: Queue, irq: Schedule) {
    && AllHaveRoom(a, bt, q, irq(0))
    && AllHaveRoom(a, bt, AtHeadRead(a, bt, q, irq), irq(1))
    && AllHaveRoom(a, bt, AfterModeReset(a, bt, q, irq), irq(2))
    && DrainHasRoom(a, bt, AfterTaskReset(a, bt, q, irq), irq, 3, |AtHeadRead(a, bt, q, irq).pending|)
  }

  // ---- what the scheduled calls append ----

  function AppendedAll(a: Arch, bt: bool, q: Queue, cs: seq<Call>): seq<OpSample>
    decreases |cs|
  {
    if cs == [] then [] else Appended(a, bt, q, cs[0]) + AppendedAll(a, bt, Handle(a, bt, q, cs[0]), cs[1..])
  }

  /** The entries that come in during the drain of `n`. */
  function AppendedInDrain(a: Arch, bt: bool, q: Queue, irq: Schedule, k: nat, n: nat): seq<OpSample>
    decreases n
  {
    var q' := HandleAll(a, bt, q, irq(k));
    AppendedAll(a, bt, q, irq(k))
    + if n == 0 || q'.pending == [] then [] else AppendedInDrain(a, bt, Dequeue(q'), irq, k + 1, n - 1)
  }

  /** The entries that come in between the head read and the end of the sync. */
  function AppendedMeanwhile(a: Arch, bt: bool, q: Queue, irq: Schedule): seq<OpSample> {
    AppendedAll(a, bt, AtHeadRead(a, bt, q, irq), irq(1))
    + AppendedAll(a, bt, AfterModeReset(a, bt, q, irq), irq(2))
    + AppendedInDrain(a, bt, AfterTaskReset(a, bt, q, irq), irq, 3, |AtHeadRead(a, bt, q, irq).pending|)
  }

  /** Calls with room append their entries one after the other. */
  lemma {:induction false} HandleAllAppends(a: Arch, bt: bool, q: Queue, cs: seq<Call>)
    requires q.Free() >= 0 && AllHaveRoom(a, bt, q, cs)
    ensures var q' := HandleAll(a, bt, q, cs);
            q'.pending == q.pending + AppendedAll(a, bt, q, cs) && q'.Free() >= 0 && q'.size == q.size
    decreases |cs|
  {
    if cs == [] {
      assert q.pending + [] == q.pending;
    } else {
      var q1 := Handle(a, bt, q, cs[0]);
      HandleAppends(a, bt, q, cs[0]);
      HandleAllAppends(a, bt, q1, cs[1..]);
      Assoc(q.pending, Appended(a, bt, q, cs[0]), AppendedAll(a, bt, q1, cs[1..]));
    }
  }

  /** The same with nothing asked: however far one looks, the calls have appended their
    * entries one after the other if and only if each had its room. */
  lemma {:induction false} AllAppendIffRoom(a: Arch, bt: bool, q: Queue, cs: seq<Call>)
    requires q.Free() >= 0
    ensures AppendThroughout(a, bt, q, cs) <==> AllHaveRoom(a, bt, q, cs)
    decreases |cs|
  {
    if cs != [] {
      FifoIffRoom(a, bt, q, cs[0]);
      if HasRoom(a, bt, q, cs[0]) {
        HandleAppends(a, bt, q, cs[0]);
        AllAppendIffRoom(a, bt, Handle(a, bt, q, cs[0]), cs[1..]);
      }
    }
  }

  /** Each of the calls in turn leaves what was pending, with its entries behind. */
  predicate AppendThroughout(a: Arch, bt: bool, q: Queue, cs: seq<Call>)
    decreases |cs|
  {
    cs != [] ==>
      && Handle(a, bt, q, cs[0]).pending == q.pending + Appended(a, bt, q, cs[0])
      && AppendThroughout(a, bt, Handle(a, bt, q, cs[0]), cs[1..])
  }

  /** Draining `n` entries leaves the others, and behind them all that came in. */
  lemma {:induction false} DrainLeaves(a: Arch, bt: bool, q: Queue, irq: Schedule, k: nat, n: nat)
    requires q.Free() >= 0 && n <= |q.pending| && DrainHasRoom(a, bt, q, irq, k, n)
    ensures AfterDrain(a, bt, q, irq, k, n).pending == q.pending[n..] + AppendedInDrain(a, bt, q, irq, k, n)
    decreases n
  {
    var q', more := HandleAll(a, bt, q, irq(k)), AppendedAll(a, bt, q, irq(k));
    HandleAllAppends(a, bt, q, irq(k));
    if n == 0 {
      assert more + [] == more && q.pending[0..] == q.pending;
    } else {
      var later := AppendedInDrain(a, bt, Dequeue(q'), irq, k + 1, n - 1);
      DrainLeaves(a, bt, Dequeue(q'), irq, k + 1, n - 1);
      DropMore(q.pending, more, n);
      Assoc(q.pending[n..], more, later);
    }
  }

  lemma DropMore(pending: seq<OpSample>, more: seq<OpSample>, n: nat)
    requires 0 < n <= |pending|
    ensures (pending + more)[1..][n - 1..] == pending[n..] + more
  {
  }

  /** After a sync exactly what has come in since the head read is queued, in order. */
  lemma SyncLeaves(a: Arch, bt: bool, q: Queue, irq: Schedule)
    requires q.Free() >= 0 && ScheduleHasRoom(a, bt, q, irq)
    ensures AfterDrain(a, bt, AfterTaskReset(a, bt, q, irq), irq, 3, |AtHeadRead(a, bt, q, irq).pending|).pending
         == AppendedMeanwhile(a, bt, q, irq)
  {
    var q1, q2, q3 := AtHeadRead(a, bt, q, irq), AfterModeReset(a, bt, q, irq), AfterTaskReset(a, bt, q, irq);
    HandleAllAppends(a, bt, q, irq(0));
    HandleAllAppends(a, bt, q1, irq(1));
    HandleAllAppends(a, bt, q2, irq(2));
    DrainLeaves(a, bt, q3, irq, 3, |q1.pending|);
    Assoc(q1.pending, AppendedAll(a, bt, q1, irq(1)), AppendedAll(a, bt, q2, irq(2)));
    assert q3.pending[|q1.pending|..] == AppendedAll(a, bt, q1, irq(1)) + AppendedAll(a, bt, q2, irq(2));
  }

  lemma AddEntriesPrintConcat(a: Arch, b: Buffer, xs: seq<Record>, ys: seq<Record>)
    ensures AddEntries(AddEntries(b, PrintAll(a, xs)), PrintAll(a, ys)) == AddEntries(b, PrintAll(a, xs + ys))
  {
    PrintAllConcat(a, xs, ys);
    AddEntriesConcat(b, PrintAll(a, xs), PrintAll(a, ys));
  }

  lemma PrintOne(a: Arch, r: Record)
    ensures PrintAll(a, [r]) == Print(a, r)
  {
    assert [r][1..] == [];
    assert PrintAll(a, [r]) == Print(a, r) + [];
  }

  // ---- the methods ----

  method AddRecord(events: EventBuffer, a: Arch, r: Record)
    requires events.Valid()
    modifies events`bufferPos, events`bufferReady, events`eventLostOverflow, events.eventBuffer
    ensures events.Valid() && events.Abs() == AddEntries(old(events.Abs()), PrintAll(a, [r]))
  {
    events.AddEventEntries(Print(a, r));
    PrintOne(a, r);
  }

  /** The body of sync_buffer's loop, for the entry at the tail. */
  method SyncEntry(events: EventBuffer, a: Arch, s: SyncState, e: OpSample) returns (s': SyncState)
    requires events.Valid()
    modifies events`bufferPos, events`bufferReady, events`eventLostOverflow, events.eventBuffer
    ensures events.Valid() && s' == SyncStep(a, s, e)
    ensures events.Abs() == AddEntries(old(events.Abs()), PrintAll(a, EmitOne(a, s, e)))
  {
    s' := s;
    if IsCode(a, e) {
      if e.event <= CPU_IS_KERNEL {
        if s.phase == BufferStart {
          s' := s.(phase := SampleStart);
        }
        AddRecord(events, a, if e.event == 1 then KernelEnter else KernelExit);
      } else if e.event == CPU_TRACE_BEGIN {
        s' := s.(phase := BtStart);
        AddRecord(events, a, TraceBegin);
      } else if e.event == RR_CPU_CTX_TGID {
        s' := s.(tgid := a.ToWord(e.timestamp));
      } else if e.event == RR_CPU_CTX_TID {
        AddRecord(events, a, CtxSwitch(a.ToWord(e.timestamp), s.tgid));
      } else if e.event == StampEvent(SamplingBegin) {
        AddRecord(events, a, Timestamp(SamplingBegin, e.timestamp));
      } else if e.event == StampEvent(SamplingEnd) {
        AddRecord(events, a, Timestamp(SamplingEnd, e.timestamp));
      } else if e.event == StampEvent(SampleBegin) {
        AddRecord(events, a, Timestamp(SampleBegin, e.timestamp));
      } else if e.event == StampEvent(SampleEnd) {
        AddRecord(events, a, Timestamp(SampleEnd, e.timestamp));
      }
    } else if s.phase == BtStart || s.phase == SampleStart {
      if e.eip != 0 {
        AddRecord(events, a, Sample(e.eip, e.event));
      } else if s.phase == BtStart {
        s' := s.(phase := BtIgnore, btLost := s.btLost + 1);
      }
    }
  }

  // ---- which writes a sync sees ----

  ghost predicate SaneSchedule(a: Arch, irq: Schedule) {
    forall k: nat :: AllSane(a, irq(k))
  }

  /** What was seen from the `since`-th write on: in each place the write due there or a later
    * one, which `picks` says. */
  ghost predicate SeenAt(writes: seq<OpSample>, since: nat, seen: seq<OpSample>, picks: seq<nat>) {
    && |picks| == |seen|
    && forall j :: 0 <= j < |seen| ==> since + j <= picks[j] < |writes| && seen[j] == writes[picks[j]]
  }

  /** The same of the rounds of a loop, with all that has been written since there were
    * `start`. */
  ghost predicate SeenSoFar(a: Arch, start: seq<OpSample>, writes: seq<OpSample>, sane: bool, since: nat,
                            seen: seq<OpSample>, picks: seq<nat>) {
    Wrote(a, start, writes, sane) && SeenAt(writes, since, seen, picks)
  }

  lemma SeenOneMore(a: Arch, start: seq<OpSample>, before: seq<OpSample>, writes: seq<OpSample>, irq: Schedule,
                    i: nat, since: nat, seen: seq<OpSample>, picks: seq<nat>, k: nat)
    requires SeenSoFar(a, start, before, SaneSchedule(a, irq), since, seen, picks)
    requires Wrote(a, before, writes, AllSane(a, irq(i)))
    requires since + |seen| <= k < |writes|
    ensures SeenSoFar(a, start, writes, SaneSchedule(a, irq), since, seen + [writes[k]], picks + [k])
  {
    WroteMore(a, start, before, writes, irq, i);
  }

  lemma WroteSome(a: Arch, before: seq<OpSample>, writes: seq<OpSample>, irq: Schedule, i: nat)
    requires Wrote(a, before, writes, AllSane(a, irq(i)))
    ensures Wrote(a, before, writes, SaneSchedule(a, irq))
  {
  }

  lemma WroteBoth(a: Arch, start: seq<OpSample>, before: seq<OpSample>, writes: seq<OpSample>, irq: Schedule)
    requires Wrote(a, start, before, AllSane(a, irq(0))) && Wrote(a, before, writes, SaneSchedule(a, irq))
    ensures Wrote(a, start, writes, SaneSchedule(a, irq))
  {
  }

  lemma WroteMore(a: Arch, start: seq<OpSample>, before: seq<OpSample>, writes: seq<OpSample>, irq: Schedule, i: nat)
    requires Wrote(a, start, before, SaneSchedule(a, irq)) && Wrote(a, before, writes, AllSane(a, irq(i)))
    ensures Wrote(a, start, writes, SaneSchedule(a, irq))
  {
  }

  /** Where the `v`-th write goes: the count, less whole rounds. */
  function SlotOf(v: nat, size: nat): (p: nat)
    requires size > 0
    ensures p < size
    decreases v
  {
    if v < size then v else SlotOf(v - size, size)
  }

  lemma {:induction false} NextSlot(v: nat, size: nat)
    requires size > 0
    ensures SlotOf(v + 1, size) == if SlotOf(v, size) + 1 < size then SlotOf(v, size) + 1 else 0
    decreases v
  {
    if size <= v {
      NextSlot(v - size, size);
    }
  }

  lemma {:induction false} SlotFurther(v: nat, n: nat, size: nat)
    requires n < size
    ensures SlotOf(v + n, size) == Advance(SlotOf(v, size), n, size)
    decreases v
  {
    if size <= v {
      SlotFurther(v - size, n, size);
    }
  }

  lemma {:induction false} SlotIsMod(v: nat, size: nat)
    requires size > 0
    ensures SlotOf(v, size) == v % size
  {
    if v > 0 {
      SlotIsMod(v - 1, size);
      DivStep(v - 1, size);
      NextSlot(v - 1, size);
    }
  }

  /** The count of get_slots, with the tail where the `since`-th write goes and the head where
    * the `read`-th does, is what was written since, but for whole rounds. */
  lemma {:induction false} SlotsCount(since: nat, read: nat, n: nat, size: nat)
    requires since <= read && n < size && SlotOf(read, size) == Advance(SlotOf(since, size), n, size)
    ensures n == SlotOf(read - since, size) <= read - since && SlotOf(since + n, size) == SlotOf(read, size)
    decreases read - since
  {
    SlotFurther(since, n, size);
    if read - since >= size {
      SlotsCount(since, read - size, n, size);
    } else {
      SlotFurther(since, read - since, size);
    }
  }

  /** get_slots: read the head, reset what decides about notes, and count the entries up to
    * the head that was read, which is where the `read`-th write goes. */
  method GetSlots(ring: Ring, bt: bool, irq: Schedule)
    returns (available: nat, ghost batch: seq<OpSample>, ghost headRead: nat, ghost read: nat)
    requires ring.Valid()
    modifies ring, ring.buffer
    ensures ring.Valid() && ring.tailPos == old(ring.tailPos)
    ensures Wrote(ring.arch, old(ring.writes), ring.writes, SaneSchedule(ring.arch, irq))
    ensures |old(ring.writes)| <= read <= |ring.writes| && headRead == SlotOf(read, ring.buffer.Length)
    ensures batch == AtHeadRead(ring.arch, bt, old(ring.Abs()), irq).pending
    ensures available == |batch| < ring.buffer.Length
    ensures headRead == Advance(ring.tailPos, available, ring.buffer.Length)
    ensures ring.Abs() == AfterTaskReset(ring.arch, bt, old(ring.Abs()), irq)
    ensures ScheduleHasRoom(ring.arch, bt, old(ring.Abs()), irq) ==> batch <= ring.Pending()
  {
    if ScheduleHasRoom(ring.arch, bt, ring.Abs(), irq) {
      BatchStays(ring.arch, bt, ring.Abs(), irq);
    }
    ring.Interrupts(bt, irq(0));
    var head := ring.headPos;
    headRead, read, batch := head, |ring.writes|, ring.Pending();
    SlotIsMod(read, ring.buffer.Length);
    ghost var before := ring.writes;
    CpuBufferReset(ring, bt, irq);
    WroteBoth(ring.arch, old(ring.writes), before, ring.writes, irq);
    available := ring.Slots(head);
  }

  /** cpu_buffer_reset, behind the head read. */
  method CpuBufferReset(ring: Ring, bt: bool, irq: Schedule)
    requires ring.Valid()
    modifies ring, ring.buffer
    ensures ring.Valid() && ring.tailPos == old(ring.tailPos)
    ensures Wrote(ring.arch, old(ring.writes), ring.writes, SaneSchedule(ring.arch, irq))
    ensures var q := HandleAll(ring.arch, bt, old(ring.Abs()), irq(1)).(lastIsKernel := -1);
            ring.Abs() == HandleAll(ring.arch, bt, q, irq(2)).(lastTask := None)
  {
    ring.Interrupts(bt, irq(1));
    ghost var before := ring.writes;
    ring.ResetLastIsKernel();
    ring.Interrupts(bt, irq(2));
    ring.ResetLastTask();
    WroteSome(ring.arch, old(ring.writes), before, irq, 1);
    WroteMore(ring.arch, old(ring.writes), before, ring.writes, irq, 2);
  }

  lemma BatchStays(a: Arch, bt: bool, q: Queue, irq: Schedule)
    requires q.Free() >= 0 && ScheduleHasRoom(a, bt, q, irq)
    ensures AtHeadRead(a, bt, q, irq).pending <= AfterTaskReset(a, bt, q, irq).pending
  {
    HandleAllAppends(a, bt, q, irq(0));
    HandleAllAppends(a, bt, AtHeadRead(a, bt, q, irq), irq(1));
    HandleAllAppends(a, bt, AfterModeReset(a, bt, q, irq), irq(2));
  }

  /** One round of sync_buffer's loop, after the producer calls `calls`, at the slot of the
    * `v`-th write: it sees that one, or a later one. */
  method Round(ring: Ring, events: EventBuffer, bt: bool, calls: seq<Call>, s: SyncState, ghost v: nat)
    returns (s': SyncState, ghost k: nat)
    requires ring.Valid() && events.Valid()
    requires v < |ring.writes| && ring.tailPos == SlotOf(v, ring.buffer.Length)
    modifies ring, ring.buffer
    modifies events`bufferPos, events`bufferReady, events`eventLostOverflow, events.eventBuffer
    ensures ring.Valid() && events.Valid()
    ensures Wrote(ring.arch, old(ring.writes), ring.writes, AllSane(ring.arch, calls))
    ensures ring.tailPos == SlotOf(v + 1, ring.buffer.Length)
    ensures v <= k < |ring.writes|
    ensures s' == SyncStep(ring.arch, s, ring.writes[k])
    ensures events.Abs()
            == AddEntries(old(events.Abs()), PrintAll(ring.arch, EmitOne(ring.arch, s, ring.writes[k])))
    ensures var q := HandleAll(ring.arch, bt, old(ring.Abs()), calls);
            q.pending != [] ==> ring.writes[k] == q.pending[0] && ring.Abs() == Dequeue(q)
  {
    ring.Interrupts(bt, calls);
    ghost var q := ring.Abs();
    SlotIsMod(v, ring.buffer.Length);
    k := SlotHolds(ring.buffer[..], ring.writes, v);
    var e := ring.Front();
    s' := SyncEntry(events, ring.arch, s, e);
    assert ring.Abs() == q;
    NextSlot(v, ring.buffer.Length);
    ring.IncrementTail();
  }

  /** A round, and what has been seen and emitted with it since there were `start` writes and
    * the event buffer was as `before`. */
  method Turn(ring: Ring, events: EventBuffer, bt: bool, irq: Schedule, i: nat, s: SyncState, ghost before: Buffer,
              ghost start: seq<OpSample>, ghost since: nat, ghost seen: seq<OpSample>, ghost picks: seq<nat>,
              ghost v: nat)
    returns (s': SyncState, ghost seen': seq<OpSample>, ghost picks': seq<nat>)
    requires ring.Valid() && events.Valid() && i == |seen|
    requires v == since + |seen| < |ring.writes| && ring.tailPos == SlotOf(v, ring.buffer.Length)
    requires SeenSoFar(ring.arch, start, ring.writes, SaneSchedule(ring.arch, irq), since, seen, picks)
    requires Emitted(ring.arch, before, seen, s, events.Abs())
    modifies ring, ring.buffer
    modifies events`bufferPos, events`bufferReady, events`eventLostOverflow, events.eventBuffer
    ensures ring.Valid() && events.Valid() && old(ring.writes) <= ring.writes
    ensures |seen'| == |seen| + 1 && ring.tailPos == SlotOf(v + 1, ring.buffer.Length)
    ensures SeenSoFar(ring.arch, start, ring.writes, SaneSchedule(ring.arch, irq), since, seen', picks')
    ensures Emitted(ring.arch, before, seen', s', events.Abs())
    ensures var q := HandleAll(ring.arch, bt, old(ring.Abs()), irq(3 + i));
            q.pending != [] ==> seen' == seen + [q.pending[0]] && ring.Abs() == Dequeue(q)
  {
    ghost var k, b, writes := 0, events.Abs(), ring.writes;
    s', k := Round(ring, events, bt, irq(3 + i), s, v);
    EmittedStep(ring.arch, before, seen, s, b, ring.writes[k]);
    SeenOneMore(ring.arch, start, writes, ring.writes, irq, 3 + i, since, seen, picks, k);
    seen', picks' := seen + [ring.writes[k]], picks + [k];
  }

  /** The loop of sync_buffer over the `available` entries at the tail, which is where the
    * `since`-th write goes. Nothing is asked of the calls that land in it: in any case an
    * entry is seen for each that was counted, none of them older than the one due there. They
    * are the batch if every call had its room. */
  method Drain(ring: Ring, events: EventBuffer, bt: bool, irq: Schedule, available: nat,
               ghost batch: seq<OpSample>, ghost since: nat)
    returns (s: SyncState, ghost seen: seq<OpSample>, ghost picks: seq<nat>)
    requires ring.Valid() && events.Valid()
    requires available == |batch| < ring.buffer.Length
    requires since + available <= |ring.writes| && ring.tailPos == SlotOf(since, ring.buffer.Length)
    modifies ring, ring.buffer
    modifies events`bufferPos, events`bufferReady, events`eventLostOverflow, events.eventBuffer
    ensures ring.Valid() && events.Valid() && |seen| == available
    ensures SeenSoFar(ring.arch, old(ring.writes), ring.writes, SaneSchedule(ring.arch, irq), since, seen, picks)
    ensures Emitted(ring.arch, old(events.Abs()), seen, s, events.Abs())
    ensures ring.tailPos == SlotOf(since + available, ring.buffer.Length)
    ensures batch <= old(ring.Pending()) && DrainHasRoom(ring.arch, bt, old(ring.Abs()), irq, 3, available) ==>
      && seen == batch
      && HandleAll(ring.arch, bt, ring.Abs(), irq(3 + available))
         == AfterDrain(ring.arch, bt, old(ring.Abs()), irq, 3, available)
  {
    var a := ring.arch;
    s, seen, picks := SYNC_INIT, [], [];
    ghost var q, v, v' := ring.Abs(), since, since + available;
    ghost var goal := AfterDrain(a, bt, q, irq, 3, available);
    ghost var room := batch <= ring.Pending() && DrainHasRoom(a, bt, q, irq, 3, available);
    OnCourseFromStart(a, bt, q, irq, batch);
    for i := 0 to available
      invariant ring.Valid() && events.Valid() && ring.Abs() == q
      invariant |seen| == i && v == since + i && ring.tailPos == SlotOf(v, ring.buffer.Length)
      invariant since + available <= |ring.writes|
      invariant SeenSoFar(a, old(ring.writes), ring.writes, SaneSchedule(a, irq), since, seen, picks)
      invariant Emitted(a, old(events.Abs()), seen, s, events.Abs())
      invariant room ==> SeenOnCourse(a, bt, q, irq, batch, seen, goal)
    {
      SeenOnCourseStep(a, bt, q, irq, batch, seen, goal);
      s, seen, picks := Turn(ring, events, bt, irq, i, s, old(events.Abs()), old(ring.writes), since, seen,
                             picks, v);
      q, v := ring.Abs(), v + 1;
    }
    assert v == v';
    OnCourseToTheEnd(a, bt, q, irq, batch, seen, goal);
  }

  /** With `left` still to be drained from the front of `q`, the drain will end in `goal`. */
  ghost predicate OnCourse(a: Arch, bt: bool, q: Queue, irq: Schedule, k: nat, left: seq<OpSample>, goal: Queue) {
    && left <= q.pending && q.Free() >= 0
    && DrainHasRoom(a, bt, q, irq, k, |left|)
    && AfterDrain(a, bt, q, irq, k, |left|) == goal
  }

  lemma OnCourseStep(a: Arch, bt: bool, q: Queue, irq: Schedule, k: nat, left: seq<OpSample>, goal: Queue)
    requires left != [] && OnCourse(a, bt, q, irq, k, left, goal)
    ensures q.pending != [] && q.pending[0] == left[0] && AllHaveRoom(a, bt, q, irq(k))
    ensures var q' := HandleAll(a, bt, q, irq(k));
            q'.pending != [] && OnCourse(a, bt, Dequeue(q'), irq, k + 1, left[1..], goal)
  {
    HandleAllAppends(a, bt, q, irq(k));
  }

  /** The entries seen are the first of the batch, with the rest of it on course. */
  ghost predicate SeenOnCourse(a: Arch, bt: bool, q: Queue, irq: Schedule, batch: seq<OpSample>,
                               seen: seq<OpSample>, goal: Queue) {
    seen <= batch && OnCourse(a, bt, q, irq, 3 + |seen|, batch[|seen|..], goal)
  }

  lemma OnCourseFromStart(a: Arch, bt: bool, q: Queue, irq: Schedule, batch: seq<OpSample>)
    requires q.Free() >= 0
    ensures batch <= q.pending && DrainHasRoom(a, bt, q, irq, 3, |batch|) ==>
      SeenOnCourse(a, bt, q, irq, batch, [], AfterDrain(a, bt, q, irq, 3, |batch|))
  {
    assert batch[0..] == batch;
  }

  lemma SeenOnCourseStep(a: Arch, bt: bool, q: Queue, irq: Schedule, batch: seq<OpSample>,
                         seen: seq<OpSample>, goal: Queue)
    requires |seen| < |batch|
    ensures SeenOnCourse(a, bt, q, irq, batch, seen, goal) ==>
      var q' := HandleAll(a, bt, q, irq(3 + |seen|));
      q'.pending != [] && SeenOnCourse(a, bt, Dequeue(q'), irq, batch, seen + [q'.pending[0]], goal)
  {
    if SeenOnCourse(a, bt, q, irq, batch, seen, goal) {
      SeesTheNext(a, bt, q, irq, batch, |seen|, goal);
      assert batch[..|seen| + 1] == seen + [batch[|seen|]];
    }
  }

  lemma SeesTheNext(a: Arch, bt: bool, q: Queue, irq: Schedule, batch: seq<OpSample>, i: nat, goal: Queue)
    requires i < |batch| && OnCourse(a, bt, q, irq, 3 + i, batch[i..], goal)
    ensures var q' := HandleAll(a, bt, q, irq(3 + i));
            && q'.pending != [] && q'.pending[0] == batch[i]
            && OnCourse(a, bt, Dequeue(q'), irq, 3 + (i + 1), batch[i + 1..], goal)
  {
    OnCourseStep(a, bt, q, irq, 3 + i, batch[i..], goal);
    HandleAllAppends(a, bt, q, irq(3 + i));
    assert batch[i..][1..] == batch[i + 1..];
  }

  lemma OnCourseToTheEnd(a: Arch, bt: bool, q: Queue, irq: Schedule, batch: seq<OpSample>,
                         seen: seq<OpSample>, goal: Queue)
    requires |seen| == |batch|
    ensures SeenOnCourse(a, bt, q, irq, batch, seen, goal) ==>
      seen == batch && HandleAll(a, bt, q, irq(3 + |batch|)) == goal
  {
    assert batch[|seen|..] == [];
  }

  /** After the entries `seen`, the state of the loop and the event buffer. */
  ghost predicate Emitted(a: Arch, before: Buffer, seen: seq<OpSample>, s: SyncState, b: Buffer) {
    s == SyncAll(a, SYNC_INIT, seen) && b == AddEntries(before, PrintAll(a, EmitAll(a, SYNC_INIT, seen)))
  }

  lemma EmittedStep(a: Arch, before: Buffer, seen: seq<OpSample>, s: SyncState, b: Buffer, e: OpSample)
    requires Emitted(a, before, seen, s, b)
    ensures Emitted(a, before, seen + [e], SyncStep(a, s, e), AddEntries(b, PrintAll(a, EmitOne(a, s, e))))
  {
    assert (seen + [e])[..|seen|] == seen;
    AddEntriesPrintConcat(a, before, EmitAll(a, SYNC_INIT, seen), EmitOne(a, s, e));
  }

  /** The loop, and the calls that land behind it. */
  method DrainToEnd(ring: Ring, events: EventBuffer, bt: bool, irq: Schedule, available: nat,
                    ghost batch: seq<OpSample>, ghost since: nat)
    returns (btLost: nat, ghost seen: seq<OpSample>, ghost picks: seq<nat>)
    requires ring.Valid() && events.Valid()
    requires available == |batch| < ring.buffer.Length
    requires since + available <= |ring.writes| && ring.tailPos == SlotOf(since, ring.buffer.Length)
    modifies ring, ring.buffer
    modifies events`bufferPos, events`bufferReady, events`eventLostOverflow, events.eventBuffer
    ensures ring.Valid() && events.Valid() && |seen| == available
    ensures SeenSoFar(ring.arch, old(ring.writes), ring.writes, SaneSchedule(ring.arch, irq), since, seen, picks)
    ensures events.Abs() == AddEntries(old(events.Abs()), PrintAll(ring.arch, EmitAll(ring.arch, SYNC_INIT, seen)))
    ensures btLost == SyncAll(ring.arch, SYNC_INIT, seen).btLost
    ensures ring.tailPos == SlotOf(since + available, ring.buffer.Length)
    ensures batch <= old(ring.Pending()) && DrainHasRoom(ring.arch, bt, old(ring.Abs()), irq, 3, available) ==>
      seen == batch && ring.Abs() == AfterDrain(ring.arch, bt, old(ring.Abs()), irq, 3, available)
  {
    var s;
    s, seen, picks := Drain(ring, events, bt, irq, available, batch, since);
    ghost var before := ring.writes;
    ring.Interrupts(bt, irq(3 + available));
    WroteMore(ring.arch, old(ring.writes), before, ring.writes, irq, 3 + available);
    btLost := s.btLost;
  }

  /** Drain one CPU's ring, with `irq(k)` landing before step `k`: the head read, the two
    * writes of cpu_buffer_reset, and every round of the loop. The head was last read when
    * there had been `since` writes, and is now when there are `read`. In any case the tail
    * ends where the head was at its read, the records are what the machine makes of the
    * `seen` entries, and each of those was written after the last head read, overrun or not.
    * If every call has its room, they are the ones there at the head read, and what the
    * calls appended since stays queued. */
  method SyncBuffer(cpu: nat, ring: Ring, events: EventBuffer, bt: bool, irq: Schedule, ghost since: nat)
    returns (btLost: nat, ghost batch: seq<OpSample>, ghost read: nat, ghost seen: seq<OpSample>,
             ghost picks: seq<nat>)
    requires ring.Valid() && events.Valid()
    requires since <= |ring.writes| && ring.tailPos == SlotOf(since, ring.buffer.Length)
    modifies ring, ring.buffer
    modifies events`bufferPos, events`bufferReady, events`eventLostOverflow, events.eventBuffer
    ensures ring.Valid() && events.Valid()
    ensures Wrote(ring.arch, old(ring.writes), ring.writes, SaneSchedule(ring.arch, irq))
    ensures |old(ring.writes)| <= read <= |ring.writes| && ring.tailPos == SlotOf(read, ring.buffer.Length)
    ensures SeenAt(ring.writes, since, seen, picks)
    ensures |seen| == |batch| == SlotOf(read - since, ring.buffer.Length)
    ensures batch == AtHeadRead(ring.arch, bt, old(ring.Abs()), irq).pending
    ensures ring.tailPos == Advance(old(ring.tailPos), |batch|, ring.buffer.Length)
    ensures events.Abs() == AddEntries(old(events.Abs()), PrintAll(ring.arch, BatchRecords(ring.arch, cpu, seen)))
    ensures btLost == SyncAll(ring.arch, SYNC_INIT, seen).btLost
    ensures ScheduleHasRoom(ring.arch, bt, old(ring.Abs()), irq) ==>
      && seen == batch
      && ring.Pending() == AppendedMeanwhile(ring.arch, bt, old(ring.Abs()), irq)
      && ring.Abs()
         == AfterDrain(ring.arch, bt, AfterTaskReset(ring.arch, bt, old(ring.Abs()), irq), irq, 3, |batch|)
  {
    if ScheduleHasRoom(ring.arch, bt, ring.Abs(), irq) {
      SyncLeaves(ring.arch, bt, ring.Abs(), irq);
    }
    AddRecord(events, ring.arch, CpuSwitch(cpu));
    var available;
    ghost var headRead;
    available, batch, headRead, read := GetSlots(ring, bt, irq);
    SlotsCount(since, read, available, ring.buffer.Length);
    btLost, seen, picks := DrainToEnd(ring, events, bt, irq, available, batch, since);
    AddEntriesPrintConcat(ring.arch, old(events.Abs()), [CpuSwitch(cpu)], EmitAll(ring.arch, SYNC_INIT, seen));
  }
}
