/** The loop of sync_buffer over an array and an event buffer, with interrupts between its
  * steps, is a run of the pipeline: what is proved of all runs holds of the code. */
module Refinement {
  import opened Wrappers
  import opened EventStream
  import opened CpuBuffer
  import opened BufferSync
  import opened EventBuffer
  import opened CpuRing
  import opened SyncBuffer
  import opened Attribution
  import opened Pipeline
  import Session

  /** The events `es` are possible from `p` and lead to `p'`. */
  predicate Leads(cfg: Config, p: Pipe, es: seq<Event>, p': Pipe) {
    Possible(cfg, p, es) && After(cfg, p, es) == p'
  }

  lemma LeadsThen(cfg: Config, p: Pipe, es: seq<Event>, p': Pipe, e: Event)
    requires Leads(cfg, p, es, p') && Enabled(cfg, p', e)
    ensures Leads(cfg, p, es + [e], Pipeline.Next(cfg, p', e))
  {
    assert (es + [e])[..|es|] == es;
  }

  lemma LeadsOne(cfg: Config, p: Pipe, e: Event)
    requires Enabled(cfg, p, e)
    ensures Leads(cfg, p, [e], Pipeline.Next(cfg, p, e))
  {
    LeadsThen(cfg, p, [], p, e);
    assert [] + [e] == [e];
  }

  lemma {:induction false} LeadsOn(cfg: Config, p: Pipe, xs: seq<Event>, p': Pipe, ys: seq<Event>, p'': Pipe)
    requires Leads(cfg, p, xs, p') && Leads(cfg, p', ys, p'')
    ensures Leads(cfg, p, xs + ys, p'')
    decreases |ys|
  {
    if ys == [] {
      assert xs + ys == xs;
    } else {
      var init, e := ys[..|ys| - 1], ys[|ys| - 1];
      var before := After(cfg, p', init);
      LeadsOn(cfg, p, xs, p', init, before);
      LeadsThen(cfg, p, xs + init, before, e);
      assert xs + ys == xs + init + [e];
    }
  }

  /** Only the ring of one CPU differs. */
  predicate SameButRing(p: Pipe, p': Pipe, c: nat) {
    && c < |p.cpus| && |p'.cpus| == |p.cpus| && p'.b == p.b && p'.sync == p.sync
    && forall i :: 0 <= i < |p.cpus| && i != c ==> p'.cpus[i] == p.cpus[i]
  }

  /** Interrupts on one CPU. */
  lemma {:induction false} ProduceAll(cfg: Config, p: Pipe, c: nat, calls: seq<Call>) returns (es: seq<Event>, p': Pipe)
    requires c < |p.cpus| && AllSane(cfg.arch, calls) && AllHaveRoom(cfg.arch, cfg.backtrace, p.cpus[c].q, calls)
    ensures Leads(cfg, p, es, p') && SameButRing(p, p', c)
    ensures p'.cpus[c].q == HandleAll(cfg.arch, cfg.backtrace, p.cpus[c].q, calls)
    decreases |calls|
  {
    if calls == [] {
      es, p' := [], p;
    } else {
      var p1 := Pipeline.Next(cfg, p, Produce(c, calls[0]));
      LeadsOne(cfg, p, Produce(c, calls[0]));
      var rest;
      rest, p' := ProduceAll(cfg, p1, c, calls[1..]);
      es := [Produce(c, calls[0])] + rest;
      LeadsOn(cfg, p, [Produce(c, calls[0])], p1, rest, p');
    }
  }

  /** The pipeline at a stage of a sync of CPU `c`, with ring `q` and event buffer `b`. */
  predicate Stands(p: Pipe, c: nat, stage: Stage, left: nat, s: SyncState, q: Queue, b: Buffer) {
    && AtStage(p, stage) && p.sync.value.cpu == c && p.sync.value.left == left && p.sync.value.s == s
    && p.cpus[c].q == q && p.b == b
  }

  /** Interrupts before a step of the sync. */
  lemma Interrupted(cfg: Config, p: Pipe, c: nat, stage: Stage, left: nat, s: SyncState, q: Queue, b: Buffer,
                    calls: seq<Call>) returns (es: seq<Event>, p': Pipe)
    requires Stands(p, c, stage, left, s, q, b)
    requires AllSane(cfg.arch, calls) && AllHaveRoom(cfg.arch, cfg.backtrace, q, calls)
    ensures Leads(cfg, p, es, p') && OthersKept(p, p', c)
    ensures Stands(p', c, stage, left, s, HandleAll(cfg.arch, cfg.backtrace, q, calls), b)
  {
    es, p' := ProduceAll(cfg, p, c, calls);
  }

  predicate OthersKept(p: Pipe, p': Pipe, c: nat) {
    |p'.cpus| == |p.cpus| && forall i :: 0 <= i < |p.cpus| && i != c ==> p'.cpus[i] == p.cpus[i]
  }

  /** The ring and the event buffer after one round. */
  lemma RoundOnCourse(a: Arch, bt: bool, irq: Schedule, batch: seq<OpSample>, i: nat, q: Queue, before: Buffer,
                      goal: Queue, s: SyncState, b: Buffer)
    requires i < |batch| && OnCourse(a, bt, q, irq, 3 + i, batch[i..], goal)
    requires Emitted(a, before, batch[..i], s, b)
    ensures var q' := HandleAll(a, bt, q, irq(3 + i));
            && q'.pending != [] && q'.pending[0] == batch[i] && |batch| - i <= |q'.pending|
            && OnCourse(a, bt, Dequeue(q'), irq, 3 + (i + 1), batch[i + 1..], goal)
    ensures Emitted(a, before, batch[..i + 1], SyncStep(a, s, batch[i]),
                    AddEntries(b, PrintAll(a, EmitOne(a, s, batch[i]))))
  {
    SeesTheNext(a, bt, q, irq, batch, i, goal);
    EmittedStep(a, before, batch[..i], s, b, batch[i]);
    assert batch[..i] + [batch[i]] == batch[..i + 1];
  }

  /** One round of the loop, after its interrupts. */
  lemma RoundIsAStep(cfg: Config, p: Pipe, c: nat, irq: Schedule, batch: seq<OpSample>, i: nat, q: Queue,
                     before: Buffer, goal: Queue, s: SyncState) returns (p': Pipe)
    requires i < |batch| && c < |p.cpus|
    requires OnCourse(cfg.arch, cfg.backtrace, q, irq, 3 + i, batch[i..], goal)
    requires Stands(p, c, Draining, |batch| - i, s, HandleAll(cfg.arch, cfg.backtrace, q, irq(3 + i)), p.b)
    requires Emitted(cfg.arch, before, batch[..i], s, p.b)
    ensures Leads(cfg, p, [DrainOne], p') && OthersKept(p, p', c) && c < |p'.cpus|
    ensures Stands(p', c, Draining, |batch| - (i + 1), SyncStep(cfg.arch, s, batch[i]), p'.cpus[c].q, p'.b)
    ensures OnCourse(cfg.arch, cfg.backtrace, p'.cpus[c].q, irq, 3 + (i + 1), batch[i + 1..], goal)
    ensures Emitted(cfg.arch, before, batch[..i + 1], SyncStep(cfg.arch, s, batch[i]), p'.b)
  {
    RoundOnCourse(cfg.arch, cfg.backtrace, irq, batch, i, q, before, goal, s, p.b);
    p' := Pipeline.Next(cfg, p, DrainOne);
    LeadsOne(cfg, p, DrainOne);
  }

  /** From the `i`-th entry of the batch on: the loop's rounds are drain steps. */
  lemma {:induction false} DrainAll(cfg: Config, p: Pipe, c: nat, irq: Schedule, batch: seq<OpSample>, i: nat,
                                    before: Buffer, goal: Queue, s: SyncState)
    returns (es: seq<Event>, p': Pipe, s': SyncState)
    requires i <= |batch| && SaneSchedule(cfg.arch, irq)
    requires c < |p.cpus| && Stands(p, c, Draining, |batch| - i, s, p.cpus[c].q, p.b)
    requires OnCourse(cfg.arch, cfg.backtrace, p.cpus[c].q, irq, 3 + i, batch[i..], goal)
    requires Emitted(cfg.arch, before, batch[..i], s, p.b)
    ensures Leads(cfg, p, es, p') && OthersKept(p, p', c)
    ensures c < |p'.cpus| && Stands(p', c, Draining, 0, s', goal, p'.b)
    ensures Emitted(cfg.arch, before, batch, s', p'.b)
    decreases |batch| - i
  {
    var q := p.cpus[c].q;
    assert AllHaveRoom(cfg.arch, cfg.backtrace, q, irq(3 + i));
    var es1, p1 := Interrupted(cfg, p, c, Draining, |batch| - i, s, q, p.b, irq(3 + i));
    if i == |batch| {
      es, p', s' := es1, p1, s;
      assert batch[..i] == batch;
    } else {
      var p2 := RoundIsAStep(cfg, p1, c, irq, batch, i, q, before, goal, s);
      LeadsOn(cfg, p, es1, p1, [DrainOne], p2);
      var rest;
      rest, p', s' := DrainAll(cfg, p2, c, irq, batch, i + 1, before, goal, SyncStep(cfg.arch, s, batch[i]));
      es := es1 + [DrainOne] + rest;
      LeadsOn(cfg, p, es1 + [DrainOne], p2, rest, p');
    }
  }

  /** Interrupts, and then one step of the sync. */
  lemma InterruptedThen(cfg: Config, p: Pipe, es: seq<Event>, p1: Pipe, c: nat, stage: Stage, left: nat, s: SyncState,
                        q: Queue, b: Buffer, calls: seq<Call>, e: Event) returns (es': seq<Event>, p2: Pipe)
    requires Leads(cfg, p, es, p1) && OthersKept(p, p1, c) && Stands(p1, c, stage, left, s, q, b)
    requires AllSane(cfg.arch, calls) && AllHaveRoom(cfg.arch, cfg.backtrace, q, calls)
    requires match stage case Begun => e == ReadHead case HeadRead => e == ResetMode case ModeReset => e == ResetTask
             case Draining => e == EndSync && left == 0
    ensures Enabled(cfg, p2, e) && Leads(cfg, p, es', Pipeline.Next(cfg, p2, e)) && OthersKept(p, p2, c)
    ensures Stands(p2, c, stage, left, s, HandleAll(cfg.arch, cfg.backtrace, q, calls), b)
  {
    var more;
    more, p2 := Interrupted(cfg, p1, c, stage, left, s, q, b, calls);
    LeadsOn(cfg, p, es, p1, more, p2);
    LeadsThen(cfg, p, es + more, p2, e);
    es' := es + more + [e];
  }

  /** Up to the second reset: the head is read and what was there is the batch. */
  lemma RunToDrain(cfg: Config, p: Pipe, c: nat, irq: Schedule) returns (es: seq<Event>, p': Pipe)
    requires p.sync.None? && c < |p.cpus| && p.cpus[c].q.Free() >= 0 && SaneSchedule(cfg.arch, irq)
    requires ScheduleHasRoom(cfg.arch, cfg.backtrace, p.cpus[c].q, irq)
    ensures Leads(cfg, p, es, p') && OthersKept(p, p', c)
    ensures var batch := AtHeadRead(cfg.arch, cfg.backtrace, p.cpus[c].q, irq).pending;
            Stands(p', c, Draining, |batch|, SYNC_INIT, AfterTaskReset(cfg.arch, cfg.backtrace, p.cpus[c].q, irq),
                   AddEntries(p.b, PrintAll(cfg.arch, [CpuSwitch(c)])))
  {
    var a, q := cfg.arch, p.cpus[c].q;
    var b := AddEntries(p.b, PrintAll(a, [CpuSwitch(c)]));
    var p0 := Pipeline.Next(cfg, p, BeginSync(c));
    LeadsOne(cfg, p, BeginSync(c));
    var es1, p1 := InterruptedThen(cfg, p, [BeginSync(c)], p0, c, Begun, 0, SYNC_INIT, q, b, irq(0), ReadHead);
    var q1 := AtHeadRead(a, cfg.backtrace, q, irq);
    var n := |q1.pending|;
    var es2, p2 := InterruptedThen(cfg, p, es1, Pipeline.Next(cfg, p1, ReadHead), c, HeadRead, n, SYNC_INIT, q1, b,
                                   irq(1), ResetMode);
    var q2 := AfterModeReset(a, cfg.backtrace, q, irq);
    var es3, p3 := InterruptedThen(cfg, p, es2, Pipeline.Next(cfg, p2, ResetMode), c, ModeReset, n, SYNC_INIT, q2, b,
                                   irq(2), ResetTask);
    es, p' := es3, Pipeline.Next(cfg, p3, ResetTask);
  }

  /** The drain begins on course. */
  lemma OnCourseAtStart(a: Arch, bt: bool, q: Queue, irq: Schedule)
    requires q.Free() >= 0 && ScheduleHasRoom(a, bt, q, irq)
    ensures var batch, q3 := AtHeadRead(a, bt, q, irq).pending, AfterTaskReset(a, bt, q, irq);
            OnCourse(a, bt, q3, irq, 3, batch, AfterDrain(a, bt, q3, irq, 3, |batch|))
  {
    HandleAllAppends(a, bt, q, irq(0));
    HandleAllAppends(a, bt, AtHeadRead(a, bt, q, irq), irq(1));
    HandleAllAppends(a, bt, AfterModeReset(a, bt, q, irq), irq(2));
  }

  /** From the second reset to the end. */
  lemma RunFromDrain(cfg: Config, p: Pipe, c: nat, irq: Schedule, batch: seq<OpSample>, goal: Queue)
    returns (es: seq<Event>, p': Pipe)
    requires c < |p.cpus| && Stands(p, c, Draining, |batch|, SYNC_INIT, p.cpus[c].q, p.b)
    requires OnCourse(cfg.arch, cfg.backtrace, p.cpus[c].q, irq, 3, batch, goal)
    requires SaneSchedule(cfg.arch, irq)
    ensures Leads(cfg, p, es, p') && OthersKept(p, p', c) && p'.sync.None?
    ensures c < |p'.cpus| && p'.cpus[c].q == goal
    ensures p'.b == AddEntries(p.b, PrintAll(cfg.arch, EmitAll(cfg.arch, SYNC_INIT, batch)))
  {
    assert batch[0..] == batch && batch[..0] == [] && batch[..|batch|] == batch;
    var es1, p1, s := DrainAll(cfg, p, c, irq, batch, 0, p.b, goal, SYNC_INIT);
    LeadsThen(cfg, p, es1, p1, EndSync);
    es, p' := es1 + [EndSync], Pipeline.Next(cfg, p1, EndSync);
  }

  /** A whole sync, with whatever interrupts land on its CPU, is a run of the pipeline that
    * leaves the ring and the event buffer as the code does. */
  lemma SyncIsARun(cfg: Config, p: Pipe, c: nat, irq: Schedule) returns (es: seq<Event>, p': Pipe)
    requires p.sync.None? && c < |p.cpus| && p.cpus[c].q.Free() >= 0 && SaneSchedule(cfg.arch, irq)
    requires ScheduleHasRoom(cfg.arch, cfg.backtrace, p.cpus[c].q, irq)
    ensures Leads(cfg, p, es, p') && OthersKept(p, p', c) && p'.sync.None? && c < |p'.cpus|
    ensures var batch := AtHeadRead(cfg.arch, cfg.backtrace, p.cpus[c].q, irq).pending;
            && p'.cpus[c].q == AfterDrain(cfg.arch, cfg.backtrace,
                 AfterTaskReset(cfg.arch, cfg.backtrace, p.cpus[c].q, irq), irq, 3, |batch|)
            && p'.b == AddEntries(p.b, PrintAll(cfg.arch, BatchRecords(cfg.arch, c, batch)))
  {
    var a, bt, q := cfg.arch, cfg.backtrace, p.cpus[c].q;
    var batch, q3 := AtHeadRead(a, bt, q, irq).pending, AfterTaskReset(a, bt, q, irq);
    var es1, p1 := RunToDrain(cfg, p, c, irq);
    OnCourseAtStart(a, bt, q, irq);
    var es2;
    es2, p' := RunFromDrain(cfg, p1, c, irq, batch, AfterDrain(a, bt, q3, irq, 3, |batch|));
    es := es1 + es2;
    LeadsOn(cfg, p, es1, p1, es2, p');
    AddEntriesPrintConcat(a, p.b, [CpuSwitch(c)], EmitAll(a, SYNC_INIT, batch));
  }

  /** The code itself: called with the ring and the event buffer of a pipeline, it leaves them
    * as some run of the pipeline does, if every call that lands in it has its room. */
  method SyncBufferRuns(cfg: Config, ghost p: Pipe, cpu: nat, ring: Ring, events: EventBuffer, irq: Schedule,
                        ghost since: nat)
    returns (ghost es: seq<Event>, ghost p': Pipe)
    requires ring.Valid() && events.Valid() && ring.arch == cfg.arch && SaneSchedule(cfg.arch, irq)
    requires p.sync.None? && cpu < |p.cpus| && p.cpus[cpu].q == ring.Abs() && p.b == events.Abs()
    requires since <= |ring.writes| && ring.tailPos == SlotOf(since, ring.buffer.Length)
    modifies ring, ring.buffer
    modifies events`bufferPos, events`bufferReady, events`eventLostOverflow, events.eventBuffer
    ensures ring.Valid() && events.Valid()
    ensures ScheduleHasRoom(cfg.arch, cfg.backtrace, old(ring.Abs()), irq) ==>
      && Leads(cfg, p, es, p') && OthersKept(p, p', cpu) && p'.sync.None?
      && cpu < |p'.cpus| && p'.cpus[cpu].q == ring.Abs() && p'.b == events.Abs()
  {
    if ScheduleHasRoom(cfg.arch, cfg.backtrace, ring.Abs(), irq) {
      es, p' := SyncIsARun(cfg, p, cpu, irq);
    } else {
      es, p' := [], p;
    }
    var btLost;
    ghost var batch, read, seen, picks;
    btLost, batch, read, seen, picks := SyncBuffer.SyncBuffer(cpu, ring, events, cfg.backtrace, irq, since);
  }

  // ---- and of a session, with rings of any size ----

  /** The ring of a session is what has been written since the `since`-th write. */
  ghost predicate Tracks(s: Session.State, c: nat, writes: seq<OpSample>, since: nat) {
    c < |s.rings| && since <= |writes| && Session.Entries(s.rings[c]) == writes[since..]
  }

  lemma PicksAreSeen(ring: seq<Session.Taken>, writes: seq<OpSample>, since: nat, seen: seq<OpSample>, picks: seq<nat>)
    returns (shifted: seq<nat>)
    requires since <= |writes| && Session.Entries(ring) == writes[since..] && SeenAt(writes, since, seen, picks)
    ensures Session.AllBelow(shifted, |ring|) && Session.Entries(Session.Picked(ring, shifted)) == seen
  {
    shifted := seq(|picks|, j requires 0 <= j < |picks| => if picks[j] >= since then picks[j] - since else 0);
    forall j | 0 <= j < |shifted|
      ensures shifted[j] < |ring| && ring[shifted[j]].e == seen[j]
    {
      assert since + j <= picks[j] < |writes| && seen[j] == writes[picks[j]];
      assert Session.Entries(ring)[shifted[j]] == writes[since..][shifted[j]];
    }
  }

  /** `more` has been emitted, and the ring is tracked from the `read`-th write on. */
  ghost predicate Emits(a: Arch, s: Session.State, s': Session.State, c: nat, writes: seq<OpSample>, read: nat,
                        more: seq<Record>) {
    && s'.running && Tracks(s', c, writes, read)
    && |s.out| <= |s'.out| && s'.out[..|s.out|] == s.out && Session.Records(s'.out[|s.out|..]) == more
  }

  lemma InterruptTracks(a: Arch, s: Session.State, c: nat, before: seq<OpSample>, more: seq<OpSample>, since: nat)
    requires s.running && Tracks(s, c, before, since) && StorableAll(a, before + more)
    ensures Session.Enabled(a, s, Session.Interrupt(c, more))
    ensures Tracks(Session.Log(s, c, more), c, before + more, since)
  {
    StorableAllOf(a, before + more);
    assert forall i :: 0 <= i < |more| ==> more[i] == (before + more)[|before| + i];
    var ring := Session.Log(s, c, more).rings[c];
    assert Session.Entries(ring) == Session.Entries(s.rings[c]) + more;
    assert (before + more)[since..] == before[since..] + more;
  }

  lemma SyncTracks(a: Arch, s: Session.State, c: nat, writes: seq<OpSample>, since: nat, read: nat,
                   seen: seq<OpSample>, picks: seq<nat>) returns (sync: Session.Event)
    requires s.running && Tracks(s, c, writes, since) && SeenAt(writes, since, seen, picks)
    requires since <= read <= |writes|
    ensures Session.Enabled(a, s, sync)
    ensures Emits(a, s, Session.Next(a, s, sync), c, writes, read, BatchRecords(a, c, seen))
  {
    var shifted := PicksAreSeen(s.rings[c], writes, since, seen, picks);
    sync := Session.WorkSync(c, read - since, shifted);
    Session.DrainTells(a, s, c, read - since, shifted);
    assert Session.Entries(s.rings[c][read - since..]) == writes[read..];
  }

  /** The interrupts of a sync, and then the sync, go on a run `es` of a session. */
  lemma SyncIsAnEvent(a: Arch, s0: Session.State, es: seq<Session.Event>, c: nat, before: seq<OpSample>,
                      writes: seq<OpSample>, since: nat, read: nat, seen: seq<OpSample>, picks: seq<nat>)
    returns (es': seq<Session.Event>)
    requires Session.Possible(a, s0, es) && Session.After(a, s0, es).running
    requires Tracks(Session.After(a, s0, es), c, before, since) && before <= writes && StorableAll(a, writes)
    requires |before| <= read <= |writes| && SeenAt(writes, since, seen, picks)
    ensures es <= es' && Session.Possible(a, s0, es')
    ensures Emits(a, Session.After(a, s0, es), Session.After(a, s0, es'), c, writes, read, BatchRecords(a, c, seen))
  {
    var s := Session.After(a, s0, es);
    var more := writes[|before|..];
    assert writes == before + more;
    var s1 := Session.Log(s, c, more);
    InterruptTracks(a, s, c, before, more, since);
    var sync := SyncTracks(a, s1, c, writes, since, read, seen, picks);
    Session.Extend(a, s0, es, Session.Interrupt(c, more));
    es' := es + [Session.Interrupt(c, more)];
    Session.Extend(a, s0, es', sync);
    es' := es' + [sync];
  }

  /** The code itself, with nothing asked of the room in the ring: called while a session runs,
    * it emits the words that the session goes on to emit, and leaves the ring as that does.
    * What is proved of the labels in all sessions holds of it, overrun or not. */
  method SyncBufferIsLabelled(ghost s0: Session.State, ghost es: seq<Session.Event>, cpu: nat, ring: Ring,
                              events: EventBuffer, bt: bool, irq: Schedule, ghost since: nat)
    returns (ghost es': seq<Session.Event>, ghost read: nat, ghost more: seq<Record>)
    requires ring.Valid() && events.Valid() && SaneSchedule(ring.arch, irq) && StorableAll(ring.arch, ring.writes)
    requires Session.Possible(ring.arch, s0, es) && Session.After(ring.arch, s0, es).running
    requires Tracks(Session.After(ring.arch, s0, es), cpu, ring.writes, since)
    requires ring.tailPos == SlotOf(since, ring.buffer.Length)
    modifies ring, ring.buffer
    modifies events`bufferPos, events`bufferReady, events`eventLostOverflow, events.eventBuffer
    ensures ring.Valid() && events.Valid() && StorableAll(ring.arch, ring.writes)
    ensures ring.tailPos == SlotOf(read, ring.buffer.Length)
    ensures es <= es' && Session.Possible(ring.arch, s0, es')
    ensures Emits(ring.arch, Session.After(ring.arch, s0, es), Session.After(ring.arch, s0, es'), cpu, ring.writes,
                  read, more)
    ensures events.Abs() == AddEntries(old(events.Abs()), PrintAll(ring.arch, more))
  {
    var btLost;
    ghost var batch, seen, picks;
    btLost, batch, read, seen, picks := SyncBuffer.SyncBuffer(cpu, ring, events, bt, irq, since);
    more := BatchRecords(ring.arch, cpu, seen);
    es' := SyncIsAnEvent(ring.arch, s0, es, cpu, old(ring.writes), ring.writes, since, read, seen, picks);
  }
}
