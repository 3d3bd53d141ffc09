/** The whole sample pipeline as a state machine: the rings of any number of CPUs, interrupt
  * handlers that run between any two steps of sync_buffer, the syncs one after the other
  * under buffer_sem, adaptation records, and the daemon's reads. */
module Pipeline {
  import opened Sequences
  import opened Wrappers
  import opened EventStream
  import opened CpuBuffer
  import opened BufferSync
  import opened EventBuffer
  import opened Attribution

  datatype Config = Config(arch: Arch, backtrace: bool)

  /** One CPU's ring, with the record of its life: the samples logged since the last head
    * read and in all, and the entries produced and consumed. */
  datatype Cpu = Cpu(q: Queue, next: seq<Logged>, logged: seq<Logged>,
                     produced: seq<OpSample>, consumed: seq<OpSample>)

  datatype Stage = Begun | HeadRead | ModeReset | Draining

  /** The sync that holds buffer_sem: `left` entries of the batch are still in the ring. */
  datatype Sync = Sync(cpu: nat, stage: Stage, left: nat, s: SyncState, log: seq<Logged>)

  /** What one read delivered, with the records emitted since the read before, and the
    * samples logged that went into them. */
  datatype Chunk = Chunk(words: seq<nat>, records: seq<Record>, log: seq<Logged>)

  /** `records` and `log` are those of the batches since the last drain, and `heard` is what
    * a daemon would have made of the records; `past` has the samples of every batch whose
    * head has been read. */
  datatype Pipe = Pipe(cpus: seq<Cpu>, sync: Option<Sync>, b: Buffer,
                       records: seq<Record>, heard: Decoder, log: seq<Logged>, past: seq<Logged>, chunks: seq<Chunk>)

  datatype Event =
    | Produce(cpu: nat, call: Call)
    | BeginSync(cpu: nat)
    | ReadHead
    | ResetMode
    | ResetTask
    | DrainOne
    | EndSync
    | EmitAdapt(interval: nat)
    | ReaderReads(words: nat, offset: nat, signal: bool, copyOk: bool)
    | WakeReader

  function Emit(a: Arch, p: Pipe, rs: seq<Record>): Pipe {
    p.(b := AddEntries(p.b, PrintAll(a, rs)), records := p.records + rs, heard := DecodeAll(p.heard, rs))
  }

  /** Is there a reset under way on this CPU: how much of its pending entries belongs to the
    * batch, and which of the two writes have been made. */
  predicate Syncing(p: Pipe, c: nat) { p.sync.Some? && p.sync.value.cpu == c && p.sync.value.stage != Begun }
  function LeftOf(p: Pipe, c: nat): nat { if Syncing(p, c) then p.sync.value.left else 0 }
  predicate ModeKnown(p: Pipe, c: nat) { Syncing(p, c) ==> p.sync.value.stage != HeadRead }
  predicate TaskKnown(p: Pipe, c: nat) { Syncing(p, c) ==> p.sync.value.stage == Draining }

  /** The entries of the ring that will open the next batch. */
  function Unread(p: Pipe, c: nat): seq<OpSample>
    requires c < |p.cpus|
  {
    var pending := p.cpus[c].q.pending;
    if LeftOf(p, c) <= |pending| then pending[LeftOf(p, c)..] else []
  }

  predicate AtStage(p: Pipe, stage: Stage) {
    p.sync.Some? && p.sync.value.stage == stage && p.sync.value.cpu < |p.cpus|
  }

  /** An event that the driver lets happen. Producer calls are atomic. */
  predicate CanHappen(cfg: Config, p: Pipe, e: Event) {
    match e
    case Produce(c, call) => c < |p.cpus| && Sane(cfg.arch, call)
    case BeginSync(c) => p.sync.None? && c < |p.cpus|
    case ReadHead => AtStage(p, Begun)
    case ResetMode => AtStage(p, HeadRead)
    case ResetTask => AtStage(p, ModeReset)
    case DrainOne => AtStage(p, Draining) && 0 < p.sync.value.left <= |p.cpus[p.sync.value.cpu].q.pending|
    case EndSync => AtStage(p, Draining) && p.sync.value.left == 0
    case EmitAdapt(v) => v < cfg.arch.WordLimit()
    case ReaderReads(_, _, _, _) => p.sync.None?
    case WakeReader => p.sync.None?
  }

  /** A producer call has the room that it takes without checking. */
  predicate Fits(cfg: Config, p: Pipe, e: Event)
    requires CanHappen(cfg, p, e)
  {
    e.Produce? ==> HasRoom(cfg.arch, cfg.backtrace, p.cpus[e.cpu].q, e.call)
  }

  predicate Enabled(cfg: Config, p: Pipe, e: Event) {
    CanHappen(cfg, p, e) && Fits(cfg, p, e)
  }

  function Next(cfg: Config, p: Pipe, e: Event): Pipe
    requires CanHappen(cfg, p, e)
  {
    var a := cfg.arch;
    match e
    case Produce(c, call) =>
      var cpu := p.cpus[c];
      var clean := ModeKnown(p, c) && TaskKnown(p, c);
      var log := LogOf(a, cfg.backtrace, c, clean, KnownFrom(a, Unread(p, c)), cpu.q, call);
      p.(cpus := p.cpus[c := Cpu(Handle(a, cfg.backtrace, cpu.q, call), cpu.next + log, cpu.logged + log,
                                 cpu.produced + Appended(a, cfg.backtrace, cpu.q, call), cpu.consumed)])
    case BeginSync(c) => Emit(a, p, [CpuSwitch(c)]).(sync := Some(Sync(c, Begun, 0, SYNC_INIT, [])))
    case ReadHead =>
      var y := p.sync.value;
      var cpu := p.cpus[y.cpu];
      p.(cpus := p.cpus[y.cpu := cpu.(next := [])],
         sync := Some(y.(stage := HeadRead, left := |cpu.q.pending|, log := cpu.next)),
         past := p.past + cpu.next)
    case ResetMode =>
      var y := p.sync.value;
      var cpu := p.cpus[y.cpu];
      p.(cpus := p.cpus[y.cpu := cpu.(q := cpu.q.(lastIsKernel := -1))], sync := Some(y.(stage := ModeReset)))
    case ResetTask =>
      var y := p.sync.value;
      var cpu := p.cpus[y.cpu];
      p.(cpus := p.cpus[y.cpu := cpu.(q := cpu.q.(lastTask := None))], sync := Some(y.(stage := Draining)))
    case DrainOne =>
      var y := p.sync.value;
      var cpu := p.cpus[y.cpu];
      var s := cpu.q.pending[0];
      Emit(a, p, EmitOne(a, y.s, s)).(
        cpus := p.cpus[y.cpu := cpu.(q := Dequeue(cpu.q), consumed := cpu.consumed + [s])],
        sync := Some(y.(left := y.left - 1, s := SyncStep(a, y.s, s))))
    case EndSync => p.(sync := None, log := p.log + p.sync.value.log)
    case EmitAdapt(v) => Emit(a, p, [Adapt(v)])
    case ReaderReads(words, offset, signal, copyOk) =>
      var (b, r) := Read(p.b, words, offset, signal, copyOk);
      if r.Words? then p.(b := b, records := [], heard := DECODER_INIT, log := [],
                          chunks := p.chunks + [Chunk(r.words, p.records, p.log)])
      else p.(b := b)
    case WakeReader => p.(b := WakeUp(p.b))
  }

  // ---- the invariant ----

  /** First in, first out: what was consumed and what is pending is what was produced. */
  predicate RingOk(cfg: Config, c: nat, cpu: Cpu, left: nat) {
    && cpu.q.Free() >= 0 && AllStorable(cfg.arch, cpu.q.pending)
    && cpu.consumed + cpu.q.pending == cpu.produced
    && left <= |cpu.q.pending|
    && (forall i :: 0 <= i < |cpu.next| ==> cpu.next[i].cpu == c)
  }

  /** A daemon that hears the entries behind the batch would be told the truth about the
    * samples logged since the head read. */
  predicate HearsOk(cfg: Config, c: nat, q: Queue, next: seq<Logged>, unread: seq<OpSample>,
                    modeKnown: bool, taskKnown: bool)
  {
    var v := Through(cfg.arch, BatchView(c, []), unread);
    && Agrees(cfg.backtrace, c, modeKnown, taskKnown, q.lastIsKernel, q.lastTask, v)
    && Explains(next, v.d.out)
  }

  predicate CpuOk(cfg: Config, c: nat, cpu: Cpu, left: nat, modeKnown: bool, taskKnown: bool) {
    && RingOk(cfg, c, cpu, left)
    && HearsOk(cfg, c, cpu.q, cpu.next, cpu.q.pending[left..], modeKnown, taskKnown)
  }

  predicate SyncOk(cfg: Config, p: Pipe) {
    match p.sync
    case None => Explains(p.log, p.heard.out)
    case Some(y) =>
      && y.cpu < |p.cpus| && y.s.tgid < cfg.arch.WordLimit()
      && if y.stage == Begun then
           y.s == SYNC_INIT && y.log == [] && p.heard == BatchView(y.cpu, p.heard.out).d && Explains(p.log, p.heard.out)
         else
           && y.left <= |p.cpus[y.cpu].q.pending|
           && Explains(p.log + y.log, Through(cfg.arch, View(y.s, p.heard), p.cpus[y.cpu].q.pending[..y.left]).d.out)
  }

  predicate StreamOk(cfg: Config, p: Pipe) {
    && |p.cpus| <= cfg.arch.WordLimit()
    && WellFormed(p.b) && AllEncodable(cfg.arch, p.records)
    && p.b.contents == Fit(p.b.size, PrintAll(cfg.arch, p.records))
    && p.heard == DecodeAll(DECODER_INIT, p.records)
  }

  /** A chunk is the longest prefix that fits of the words of whole records, and those
    * records tell the truth about the samples logged. */
  predicate ChunkOk(cfg: Config, size: nat, k: Chunk) {
    && AllEncodable(cfg.arch, k.records)
    && k.words == Fit(size, PrintAll(cfg.arch, k.records))
    && Explains(k.log, DecodeAll(DECODER_INIT, k.records).out)
  }

  /** The samples of one CPU, in order. */
  function OfCpu(c: nat, log: seq<Logged>): seq<Logged> {
    if log == [] then []
    else OfCpu(c, log[..|log| - 1]) + (if log[|log| - 1].cpu == c then [log[|log| - 1]] else [])
  }

  function ChunkLogs(chunks: seq<Chunk>): seq<Logged> {
    if chunks == [] then [] else ChunkLogs(chunks[..|chunks| - 1]) + chunks[|chunks| - 1].log
  }

  /** No logged sample is lost, invented or moved: the samples told in chunks, told since, and
    * in the batch under way are those of all batches, and with what is still unread they
    * are all the samples of each CPU in order. */
  predicate LogsOk(p: Pipe) {
    && p.past == ChunkLogs(p.chunks) + p.log + (if p.sync.Some? then p.sync.value.log else [])
    && forall c :: 0 <= c < |p.cpus| ==> OfCpu(c, p.past) + p.cpus[c].next == p.cpus[c].logged
  }

  predicate CpusOk(cfg: Config, p: Pipe) {
    forall c :: 0 <= c < |p.cpus| ==> CpuOk(cfg, c, p.cpus[c], LeftOf(p, c), ModeKnown(p, c), TaskKnown(p, c))
  }

  predicate ChunksOk(cfg: Config, p: Pipe) {
    forall i :: 0 <= i < |p.chunks| ==> ChunkOk(cfg, p.b.size, p.chunks[i])
  }

  predicate Inv(cfg: Config, p: Pipe) {
    StreamOk(cfg, p) && CpusOk(cfg, p) && SyncOk(cfg, p) && LogsOk(p) && ChunksOk(cfg, p)
  }

  // ---- the invariant is kept ----

  lemma EmitKeepsStream(cfg: Config, p: Pipe, rs: seq<Record>)
    requires StreamOk(cfg, p) && AllEncodable(cfg.arch, rs)
    ensures StreamOk(cfg, Emit(cfg.arch, p, rs)) && Emit(cfg.arch, p, rs).b.size == p.b.size
  {
    var a := cfg.arch;
    AddEntriesFit(p.b, PrintAll(a, p.records), PrintAll(a, rs));
    PrintAllConcat(a, p.records, rs);
    DecodeAllConcat(DECODER_INIT, p.records, rs);
  }

  /** A ring that has grown at its end by `es`. */
  function Grown(cpu: Cpu, q': Queue, es: seq<OpSample>, log: seq<Logged>): Cpu {
    Cpu(q', cpu.next + log, cpu.logged + log, cpu.produced + es, cpu.consumed)
  }

  lemma GrownRingOk(cfg: Config, c: nat, cpu: Cpu, left: nat, q': Queue, es: seq<OpSample>, log: seq<Logged>)
    requires RingOk(cfg, c, cpu, left)
    requires q'.pending == cpu.q.pending + es && q'.Free() >= 0 && AllStorable(cfg.arch, es)
    requires forall i :: 0 <= i < |log| ==> log[i].cpu == c
    ensures RingOk(cfg, c, Grown(cpu, q', es, log), left)
    ensures q'.pending[left..] == cpu.q.pending[left..] + es && q'.pending[..left] == cpu.q.pending[..left]
  {
    assert cpu.consumed + (cpu.q.pending + es) == cpu.consumed + cpu.q.pending + es;
  }

  /** What a producer call does to one CPU, in short: the ring grows, and the truth is told. */
  lemma ProduceKeepsCpu(cfg: Config, c: nat, cpu: Cpu, left: nat, modeKnown: bool, taskKnown: bool, call: Call)
    returns (q': Queue, es: seq<OpSample>, log: seq<Logged>)
    requires CpuOk(cfg, c, cpu, left, modeKnown, taskKnown)
    requires HasRoom(cfg.arch, cfg.backtrace, cpu.q, call) && Sane(cfg.arch, call)
    ensures q' == Handle(cfg.arch, cfg.backtrace, cpu.q, call)
    ensures es == Appended(cfg.arch, cfg.backtrace, cpu.q, call)
    ensures left <= |cpu.q.pending|
    ensures log == LogOf(cfg.arch, cfg.backtrace, c, modeKnown && taskKnown, KnownFrom(cfg.arch, cpu.q.pending[left..]),
                         cpu.q, call)
    ensures CpuOk(cfg, c, Grown(cpu, q', es, log), left, modeKnown, taskKnown)
    ensures q'.pending[..left] == cpu.q.pending[..left]
  {
    q' := Handle(cfg.arch, cfg.backtrace, cpu.q, call);
    es := Appended(cfg.arch, cfg.backtrace, cpu.q, call);
    log := LogOf(cfg.arch, cfg.backtrace, c, modeKnown && taskKnown, KnownFrom(cfg.arch, cpu.q.pending[left..]),
                 cpu.q, call);
    assert HearsOk(cfg, c, q', cpu.next + log, cpu.q.pending[left..] + es, modeKnown, taskKnown) by {
      ProduceKeepsHearing(cfg, c, cpu.q, cpu.next, cpu.q.pending[left..], modeKnown, taskKnown, call);
    }
    assert q'.pending == cpu.q.pending + es && q'.Free() >= 0 by {
      HandleAppends(cfg.arch, cfg.backtrace, cpu.q, call);
    }
    assert AllStorable(cfg.arch, es) by { AppendedStorable(cfg.arch, cfg.backtrace, cpu.q, call); }
    GrownRingOk(cfg, c, cpu, left, q', es, log);
  }

  lemma ProduceKeepsHearing(cfg: Config, c: nat, q: Queue, next: seq<Logged>, unread: seq<OpSample>,
                            modeKnown: bool, taskKnown: bool, call: Call)
    requires HearsOk(cfg, c, q, next, unread, modeKnown, taskKnown)
    requires q.Free() >= 0 && HasRoom(cfg.arch, cfg.backtrace, q, call) && Sane(cfg.arch, call)
    ensures HearsOk(cfg, c, Handle(cfg.arch, cfg.backtrace, q, call),
                    next + LogOf(cfg.arch, cfg.backtrace, c, modeKnown && taskKnown, KnownFrom(cfg.arch, unread), q,
                                 call),
                    unread + Appended(cfg.arch, cfg.backtrace, q, call), modeKnown, taskKnown)
  {
    var a, bt := cfg.arch, cfg.backtrace;
    var v := Through(a, BatchView(c, []), unread);
    var v' := Through(a, v, Appended(a, bt, q, call));
    ThroughConcat(a, BatchView(c, []), unread, Appended(a, bt, q, call));
    EntriesTell(a, c, [], unread);
    CallReadsWell(a, bt, c, modeKnown, taskKnown, q, v, call);
    HandleAppends(a, bt, q, call);
    var log := LogOf(a, bt, c, modeKnown && taskKnown, KnownTo(v), q, call);
    ExplainsConcat(next, v.d.out, log, ToldAll(log));
  }

  lemma OneCpuKeepsLogs(p: Pipe, c: nat, cpu': Cpu, log: seq<Logged>)
    requires LogsOk(p) && c < |p.cpus|
    requires cpu'.next == p.cpus[c].next + log && cpu'.logged == p.cpus[c].logged + log
    ensures LogsOk(p.(cpus := p.cpus[c := cpu']))
  {
    assert OfCpu(c, p.past) + (p.cpus[c].next + log) == OfCpu(c, p.past) + p.cpus[c].next + log;
  }

  predicate SameReset(p: Pipe, p': Pipe, c: nat) {
    && LeftOf(p', c) == LeftOf(p, c) && ModeKnown(p', c) == ModeKnown(p, c) && TaskKnown(p', c) == TaskKnown(p, c)
  }

  /** A step on one CPU. */
  lemma OneCpuKeepsCpus(cfg: Config, p: Pipe, p': Pipe, c: nat)
    requires CpusOk(cfg, p) && |p'.cpus| == |p.cpus|
    requires forall i :: 0 <= i < |p.cpus| && i != c ==> p'.cpus[i] == p.cpus[i] && SameReset(p, p', i)
    requires c < |p.cpus| ==> CpuOk(cfg, c, p'.cpus[c], LeftOf(p', c), ModeKnown(p', c), TaskKnown(p', c))
    ensures CpusOk(cfg, p')
  {
    forall i | 0 <= i < |p'.cpus|
      ensures CpuOk(cfg, i, p'.cpus[i], LeftOf(p', i), ModeKnown(p', i), TaskKnown(p', i))
    {
      if i != c {
        assert SameReset(p, p', i) && p'.cpus[i] == p.cpus[i];
      }
    }
  }

  lemma OneCpuKeepsSync(cfg: Config, p: Pipe, c: nat, cpu': Cpu)
    requires SyncOk(cfg, p) && c < |p.cpus|
    requires LeftOf(p, c) <= |p.cpus[c].q.pending| && LeftOf(p, c) <= |cpu'.q.pending|
    requires cpu'.q.pending[..LeftOf(p, c)] == p.cpus[c].q.pending[..LeftOf(p, c)]
    ensures SyncOk(cfg, p.(cpus := p.cpus[c := cpu']))
  {
  }

  lemma OneRingKeepsCpus(cfg: Config, p: Pipe, c: nat, cpu': Cpu)
    requires CpusOk(cfg, p) && c < |p.cpus|
    requires CpuOk(cfg, c, cpu', LeftOf(p, c), ModeKnown(p, c), TaskKnown(p, c))
    ensures CpusOk(cfg, p.(cpus := p.cpus[c := cpu']))
  {
    var p' := p.(cpus := p.cpus[c := cpu']);
    forall i | 0 <= i < |p.cpus|
      ensures SameReset(p, p', i)
    {
    }
    OneCpuKeepsCpus(cfg, p, p', c);
  }

  lemma GrownKeeps(cfg: Config, p: Pipe, c: nat, cpu': Cpu, log: seq<Logged>)
    requires Inv(cfg, p) && c < |p.cpus|
    requires CpuOk(cfg, c, cpu', LeftOf(p, c), ModeKnown(p, c), TaskKnown(p, c))
    requires cpu'.next == p.cpus[c].next + log && cpu'.logged == p.cpus[c].logged + log
    requires LeftOf(p, c) <= |p.cpus[c].q.pending|
    requires cpu'.q.pending[..LeftOf(p, c)] == p.cpus[c].q.pending[..LeftOf(p, c)]
    ensures Inv(cfg, p.(cpus := p.cpus[c := cpu']))
  {
    var p' := p.(cpus := p.cpus[c := cpu']);
    assert LogsOk(p') by { OneCpuKeepsLogs(p, c, cpu', log); }
    assert CpusOk(cfg, p') by { OneRingKeepsCpus(cfg, p, c, cpu'); }
    assert SyncOk(cfg, p') by { OneCpuKeepsSync(cfg, p, c, cpu'); }
    assert ChunksOk(cfg, p') by { SameChunks(cfg, p, p'); }
  }

  lemma ProduceKeeps(cfg: Config, p: Pipe, c: nat, call: Call)
    requires Inv(cfg, p) && Enabled(cfg, p, Produce(c, call))
    ensures Inv(cfg, Next(cfg, p, Produce(c, call)))
  {
    assert CpuOk(cfg, c, p.cpus[c], LeftOf(p, c), ModeKnown(p, c), TaskKnown(p, c));
    var q', es, log := ProduceKeepsCpu(cfg, c, p.cpus[c], LeftOf(p, c), ModeKnown(p, c), TaskKnown(p, c), call);
    var cpu' := Grown(p.cpus[c], q', es, log);
    assert Next(cfg, p, Produce(c, call)) == p.(cpus := p.cpus[c := cpu']);
    GrownKeeps(cfg, p, c, cpu', log);
  }

  /** A producer call at any moment keeps the invariant, and its ring first-in first-out, if
    * and only if it has the room that it takes without checking. */
  lemma ProduceKeepsIff(cfg: Config, p: Pipe, c: nat, call: Call)
    requires Inv(cfg, p) && CanHappen(cfg, p, Produce(c, call))
    ensures var p' := Next(cfg, p, Produce(c, call));
            && (Inv(cfg, p') <==> HasRoom(cfg.arch, cfg.backtrace, p.cpus[c].q, call))
            && (p'.cpus[c].consumed + p'.cpus[c].q.pending == p'.cpus[c].produced
                <==> HasRoom(cfg.arch, cfg.backtrace, p.cpus[c].q, call))
  {
    var p' := Next(cfg, p, Produce(c, call));
    var cpu, cpu' := p.cpus[c], p'.cpus[c];
    InvIsFifo(cfg, p, c);
    FifoIffRoom(cfg.arch, cfg.backtrace, cpu.q, call);
    FifoStep(cpu, cpu'.q.pending, Appended(cfg.arch, cfg.backtrace, cpu.q, call));
    if HasRoom(cfg.arch, cfg.backtrace, cpu.q, call) {
      ProduceKeeps(cfg, p, c, call);
    } else if Inv(cfg, p') {
      InvIsFifo(cfg, p', c);
    }
  }

  lemma InvIsFifo(cfg: Config, p: Pipe, c: nat)
    requires Inv(cfg, p) && c < |p.cpus|
    ensures p.cpus[c].consumed + p.cpus[c].q.pending == p.cpus[c].produced
    ensures p.cpus[c].q.Free() >= 0
  {
    assert CpuOk(cfg, c, p.cpus[c], LeftOf(p, c), ModeKnown(p, c), TaskKnown(p, c));
  }

  lemma FifoStep(cpu: Cpu, pending: seq<OpSample>, es: seq<OpSample>)
    requires cpu.consumed + cpu.q.pending == cpu.produced
    ensures cpu.consumed + pending == cpu.produced + es <==> pending == cpu.q.pending + es
  {
    Assoc(cpu.consumed, cpu.q.pending, es);
    if cpu.consumed + pending == cpu.produced + es {
      assert (cpu.consumed + pending)[|cpu.consumed|..] == pending;
      assert (cpu.consumed + (cpu.q.pending + es))[|cpu.consumed|..] == cpu.q.pending + es;
    }
  }

  /** Steps that leave the rings and the stages as they are. */
  lemma SameRings(cfg: Config, p: Pipe, p': Pipe)
    requires CpusOk(cfg, p) && p'.cpus == p.cpus
    requires forall c :: 0 <= c < |p.cpus| ==> SameReset(p, p', c)
    ensures CpusOk(cfg, p')
  {
    forall c | 0 <= c < |p'.cpus|
      ensures CpuOk(cfg, c, p'.cpus[c], LeftOf(p', c), ModeKnown(p', c), TaskKnown(p', c))
    {
      assert SameReset(p, p', c) && p'.cpus[c] == p.cpus[c];
    }
  }

  function SyncLog(p: Pipe): seq<Logged> { if p.sync.Some? then p.sync.value.log else [] }

  lemma SameLogs(p: Pipe, p': Pipe)
    requires LogsOk(p) && p'.cpus == p.cpus && p'.past == p.past
    requires ChunkLogs(p'.chunks) + p'.log + SyncLog(p') == ChunkLogs(p.chunks) + p.log + SyncLog(p)
    ensures LogsOk(p')
  {
  }

  lemma BeginSyncKeeps(cfg: Config, p: Pipe, c: nat)
    requires Inv(cfg, p) && Enabled(cfg, p, BeginSync(c))
    ensures Inv(cfg, Next(cfg, p, BeginSync(c)))
  {
    var p' := Next(cfg, p, BeginSync(c));
    EmitKeepsStream(cfg, p, [CpuSwitch(c)]);
    DecodeAllOne(p.heard, CpuSwitch(c));
    SameRings(cfg, p, p');
    assert p.log + [] == p.log;
    assert ChunkLogs(p.chunks) + p.log + [] == ChunkLogs(p.chunks) + p.log;
  }

  lemma {:induction false} OfCpuConcat(c: nat, xs: seq<Logged>, ys: seq<Logged>)
    ensures OfCpu(c, xs + ys) == OfCpu(c, xs) + OfCpu(c, ys)
  {
    if ys == [] {
      assert xs + ys == xs;
    } else {
      OfCpuConcat(c, xs, ys[..|ys| - 1]);
      assert (xs + ys)[..|xs + ys| - 1] == xs + ys[..|ys| - 1];
    }
  }

  lemma {:induction false} OfCpuOwn(c: nat, d: nat, ys: seq<Logged>)
    requires forall i :: 0 <= i < |ys| ==> ys[i].cpu == d
    ensures OfCpu(c, ys) == if c == d then ys else []
  {
    if ys != [] {
      OfCpuOwn(c, d, ys[..|ys| - 1]);
      assert ys == ys[..|ys| - 1] + [ys[|ys| - 1]];
    }
  }

  lemma ReadHeadKeepsLogs(cfg: Config, p: Pipe)
    requires Inv(cfg, p) && Enabled(cfg, p, ReadHead)
    ensures LogsOk(Next(cfg, p, ReadHead))
  {
    var p' := Next(cfg, p, ReadHead);
    var d := p.sync.value.cpu;
    forall c | 0 <= c < |p'.cpus|
      ensures OfCpu(c, p'.past) + p'.cpus[c].next == p'.cpus[c].logged
    {
      OfCpuConcat(c, p.past, p.cpus[d].next);
      OfCpuOwn(c, d, p.cpus[d].next);
      if c == d {
        assert OfCpu(c, p'.past) + [] == OfCpu(c, p.past) + p.cpus[c].next;
      } else {
        assert OfCpu(c, p.past) + [] == OfCpu(c, p.past);
      }
    }
    assert ChunkLogs(p.chunks) + p.log + [] == ChunkLogs(p.chunks) + p.log;
  }

  /** From the head read on, what was heard of the entries is the batch's to tell. */
  lemma ReadHeadKeepsHearing(cfg: Config, c: nat, cpu: Cpu, d: Decoder, log: seq<Logged>)
    requires HearsOk(cfg, c, cpu.q, cpu.next, cpu.q.pending, true, true)
    requires d == BatchView(c, d.out).d && Explains(log, d.out)
    ensures Explains(log + cpu.next, Through(cfg.arch, View(SYNC_INIT, d), cpu.q.pending).d.out)
    ensures HearsOk(cfg, c, cpu.q, [], [], false, false)
  {
    var v := BatchView(c, []);
    ThroughShift(cfg.arch, v, d.out, cpu.q.pending);
    assert d.out + [] == d.out;
    ExplainsConcat(log, d.out, cpu.next, Through(cfg.arch, v, cpu.q.pending).d.out);
  }

  lemma ReadHeadKeepsSync(cfg: Config, p: Pipe)
    requires CpusOk(cfg, p) && SyncOk(cfg, p) && Enabled(cfg, p, ReadHead)
    ensures SyncOk(cfg, Next(cfg, p, ReadHead))
  {
    var c := p.sync.value.cpu;
    var pending := p.cpus[c].q.pending;
    assert CpuOk(cfg, c, p.cpus[c], 0, true, true);
    assert pending[0..] == pending && pending[..|pending|] == pending;
    ReadHeadKeepsHearing(cfg, c, p.cpus[c], p.heard, p.log);
  }

  lemma ReadHeadKeepsCpus(cfg: Config, p: Pipe)
    requires CpusOk(cfg, p) && SyncOk(cfg, p) && Enabled(cfg, p, ReadHead)
    ensures CpusOk(cfg, Next(cfg, p, ReadHead))
  {
    var c := p.sync.value.cpu;
    var pending := p.cpus[c].q.pending;
    assert CpuOk(cfg, c, p.cpus[c], 0, true, true);
    assert pending[0..] == pending && pending[|pending|..] == [];
    ReadHeadKeepsHearing(cfg, c, p.cpus[c], p.heard, p.log);
    OneCpuKeepsCpus(cfg, p, Next(cfg, p, ReadHead), c);
  }

  lemma ReadHeadKeeps(cfg: Config, p: Pipe)
    requires Inv(cfg, p) && Enabled(cfg, p, ReadHead)
    ensures Inv(cfg, Next(cfg, p, ReadHead))
  {
    ReadHeadKeepsLogs(cfg, p);
    ReadHeadKeepsSync(cfg, p);
    ReadHeadKeepsCpus(cfg, p);
  }

  lemma ResetKeepsCpus(cfg: Config, p: Pipe, e: Event)
    requires CpusOk(cfg, p) && Enabled(cfg, p, e) && (e.ResetMode? || e.ResetTask?)
    ensures CpusOk(cfg, Next(cfg, p, e))
  {
    var p' := Next(cfg, p, e);
    var c := p.sync.value.cpu;
    assert CpuOk(cfg, c, p.cpus[c], LeftOf(p, c), ModeKnown(p, c), TaskKnown(p, c));
    OneCpuKeepsCpus(cfg, p, p', c);
  }

  /** The two writes of cpu_buffer_reset make the producer note anew what it would not have
    * noted, so that from then on the reader knows it. */
  lemma ResetKeeps(cfg: Config, p: Pipe, e: Event)
    requires Inv(cfg, p) && Enabled(cfg, p, e) && (e.ResetMode? || e.ResetTask?)
    ensures Inv(cfg, Next(cfg, p, e))
  {
    ResetKeepsCpus(cfg, p, e);
  }

  lemma DrainKeepsCpu(cfg: Config, c: nat, cpu: Cpu, left: nat)
    requires CpuOk(cfg, c, cpu, left, true, true) && left > 0
    ensures CpuOk(cfg, c, cpu.(q := Dequeue(cpu.q), consumed := cpu.consumed + [cpu.q.pending[0]]), left - 1,
                  true, true)
  {
    var s, rest := cpu.q.pending[0], cpu.q.pending[1..];
    assert rest[left - 1..] == cpu.q.pending[left..];
    assert cpu.q.pending == [s] + rest;
    assert cpu.consumed + [s] + rest == cpu.consumed + cpu.q.pending;
  }

  lemma DrainKeepsSync(a: Arch, v: View, batch: seq<OpSample>)
    requires batch != []
    ensures Through(a, v, batch) == Through(a, ThroughOne(a, v, batch[0]), batch[1..])
  {
    ThroughConcat(a, v, [batch[0]], batch[1..]);
    ThroughSingle(a, v, batch[0]);
    assert batch == [batch[0]] + batch[1..];
  }

  lemma HeardOne(a: Arch, d: Decoder, s: SyncState, e: OpSample)
    ensures DecodeAll(d, EmitOne(a, s, e)) == ThroughOne(a, View(s, d), e).d
  {
    var rs := EmitOne(a, s, e);
    if rs != [] {
      assert rs == [rs[0]];
      DecodeAllOne(d, rs[0]);
    }
  }

  /** Taking the first entry of the batch and hearing its record is going on with the batch. */
  lemma DrainKeepsHearing(a: Arch, y: Sync, y': Sync, d: Decoder, pending: seq<OpSample>)
    requires 0 < y.left <= |pending| && y'.left == y.left - 1 && y'.s == SyncStep(a, y.s, pending[0])
    ensures var d' := DecodeAll(d, EmitOne(a, y.s, pending[0]));
            Through(a, View(y'.s, d'), pending[1..][..y'.left]) == Through(a, View(y.s, d), pending[..y.left])
  {
    var batch := pending[..y.left];
    HeardOne(a, d, y.s, pending[0]);
    DrainKeepsSync(a, View(y.s, d), batch);
    assert batch[1..] == pending[1..][..y'.left];
  }

  /** The stream is a matter of the buffer and of what has been emitted. */
  lemma SameStream(cfg: Config, p: Pipe, p': Pipe)
    requires StreamOk(cfg, p) && |p'.cpus| == |p.cpus|
    requires p'.b == p.b && p'.records == p.records && p'.heard == p.heard
    ensures StreamOk(cfg, p')
  {
  }

  lemma NextIsStorable(cfg: Config, p: Pipe)
    requires CpusOk(cfg, p) && Enabled(cfg, p, DrainOne)
    ensures Storable(cfg.arch, p.cpus[p.sync.value.cpu].q.pending[0])
  {
    var y := p.sync.value;
    assert CpuOk(cfg, y.cpu, p.cpus[y.cpu], LeftOf(p, y.cpu), ModeKnown(p, y.cpu), TaskKnown(p, y.cpu));
  }

  lemma DrainOneKeepsStream(cfg: Config, p: Pipe)
    requires StreamOk(cfg, p) && CpusOk(cfg, p) && SyncOk(cfg, p) && Enabled(cfg, p, DrainOne)
    ensures StreamOk(cfg, Next(cfg, p, DrainOne)) && Next(cfg, p, DrainOne).b.size == p.b.size
    ensures Next(cfg, p, DrainOne).sync.value.s.tgid < cfg.arch.WordLimit()
  {
    var y := p.sync.value;
    var s := p.cpus[y.cpu].q.pending[0];
    NextIsStorable(cfg, p);
    EmitOneEncodable(cfg.arch, y.s, s);
    EmitKeepsStream(cfg, p, EmitOne(cfg.arch, y.s, s));
    SameStream(cfg, Emit(cfg.arch, p, EmitOne(cfg.arch, y.s, s)), Next(cfg, p, DrainOne));
  }

  lemma DrainOneKeepsSync(cfg: Config, p: Pipe)
    requires SyncOk(cfg, p) && Enabled(cfg, p, DrainOne)
    requires Next(cfg, p, DrainOne).sync.value.s.tgid < cfg.arch.WordLimit()
    ensures SyncOk(cfg, Next(cfg, p, DrainOne))
  {
    var p' := Next(cfg, p, DrainOne);
    DrainKeepsHearing(cfg.arch, p.sync.value, p'.sync.value, p.heard, p.cpus[p.sync.value.cpu].q.pending);
  }

  lemma DrainOneKeepsCpus(cfg: Config, p: Pipe)
    requires CpusOk(cfg, p) && Enabled(cfg, p, DrainOne)
    ensures CpusOk(cfg, Next(cfg, p, DrainOne))
  {
    DrainedKeepsCpus(cfg, p, Next(cfg, p, DrainOne));
  }

  lemma DrainedKeepsCpus(cfg: Config, p: Pipe, p': Pipe)
    requires CpusOk(cfg, p) && AtStage(p, Draining) && AtStage(p', Draining)
    requires var y := p.sync.value;
             var cpu := p.cpus[y.cpu];
             && 0 < y.left <= |cpu.q.pending| && p'.sync.value.cpu == y.cpu && p'.sync.value.left == y.left - 1
             && p'.cpus == p.cpus[y.cpu := cpu.(q := Dequeue(cpu.q), consumed := cpu.consumed + [cpu.q.pending[0]])]
    ensures CpusOk(cfg, p')
  {
    var y := p.sync.value;
    assert CpuOk(cfg, y.cpu, p.cpus[y.cpu], y.left, true, true);
    DrainKeepsCpu(cfg, y.cpu, p.cpus[y.cpu], y.left);
    OneCpuKeepsCpus(cfg, p, p', y.cpu);
  }

  lemma DrainOneKeeps(cfg: Config, p: Pipe)
    requires Inv(cfg, p) && Enabled(cfg, p, DrainOne)
    ensures Inv(cfg, Next(cfg, p, DrainOne))
  {
    DrainOneKeepsStream(cfg, p);
    DrainOneKeepsSync(cfg, p);
    DrainOneKeepsCpus(cfg, p);
  }

  lemma EndSyncKeepsSync(cfg: Config, p: Pipe)
    requires SyncOk(cfg, p) && Enabled(cfg, p, EndSync)
    ensures SyncOk(cfg, Next(cfg, p, EndSync))
  {
    var pending := p.cpus[p.sync.value.cpu].q.pending;
    assert pending[..0] == [];
  }

  lemma EndSyncKeepsLogs(cfg: Config, p: Pipe)
    requires LogsOk(p) && Enabled(cfg, p, EndSync)
    ensures LogsOk(Next(cfg, p, EndSync))
  {
    var chunks, before, y := ChunkLogs(p.chunks), p.log, p.sync.value.log;
    Assoc(chunks, before, y);
    assert chunks + (before + y) + [] == chunks + (before + y);
  }

  lemma EndSyncKeepsCpus(cfg: Config, p: Pipe)
    requires CpusOk(cfg, p) && Enabled(cfg, p, EndSync)
    ensures CpusOk(cfg, Next(cfg, p, EndSync))
  {
    var p' := Next(cfg, p, EndSync);
    forall c | 0 <= c < |p.cpus|
      ensures SameReset(p, p', c)
    {
    }
    SameRings(cfg, p, p');
  }

  lemma EndSyncKeeps(cfg: Config, p: Pipe)
    requires Inv(cfg, p) && Enabled(cfg, p, EndSync)
    ensures Inv(cfg, Next(cfg, p, EndSync))
  {
    EndSyncKeepsCpus(cfg, p);
    EndSyncKeepsSync(cfg, p);
    EndSyncKeepsLogs(cfg, p);
    SameChunks(cfg, p, Next(cfg, p, EndSync));
  }

  lemma SameChunks(cfg: Config, p: Pipe, p': Pipe)
    requires ChunksOk(cfg, p) && p'.chunks == p.chunks && p'.b.size == p.b.size
    ensures ChunksOk(cfg, p')
  {
  }

  lemma SameSync(cfg: Config, p: Pipe, p': Pipe)
    requires SyncOk(cfg, p)
    requires p'.sync == p.sync && p'.heard == p.heard && p'.log == p.log && p'.cpus == p.cpus
    ensures SyncOk(cfg, p')
  {
  }

  /** A step after which the daemon would have heard no more. */
  lemma SilentStepKeeps(cfg: Config, p: Pipe, p': Pipe)
    requires Inv(cfg, p) && StreamOk(cfg, p') && p'.b.size == p.b.size
    requires p' == p.(b := p'.b, records := p'.records)
    ensures Inv(cfg, p')
  {
    assert CpusOk(cfg, p') by { SameRings(cfg, p, p'); }
    assert LogsOk(p') by { SameLogs(p, p'); }
    assert SyncOk(cfg, p') by { SameSync(cfg, p, p'); }
    assert ChunksOk(cfg, p') by { SameChunks(cfg, p, p'); }
  }

  lemma EmitAdaptKeeps(cfg: Config, p: Pipe, v: nat)
    requires Inv(cfg, p) && Enabled(cfg, p, EmitAdapt(v))
    ensures Inv(cfg, Next(cfg, p, EmitAdapt(v)))
  {
    assert StreamOk(cfg, Emit(cfg.arch, p, [Adapt(v)])) && Emit(cfg.arch, p, [Adapt(v)]).b.size == p.b.size by {
      EmitKeepsStream(cfg, p, [Adapt(v)]);
    }
    AdaptIsSilent(cfg.arch, p, v);
    assert Next(cfg, p, EmitAdapt(v)) == Emit(cfg.arch, p, [Adapt(v)]);
    SilentStepKeeps(cfg, p, Emit(cfg.arch, p, [Adapt(v)]));
  }

  lemma AdaptIsSilent(a: Arch, p: Pipe, v: nat)
    ensures var p' := Emit(a, p, [Adapt(v)]); p' == p.(b := p'.b, records := p'.records)
  {
    DecodeAllOne(p.heard, Adapt(v));
  }

  /** A step on the event buffer that leaves its words. */
  lemma BufferKeeps(cfg: Config, p: Pipe, b: Buffer)
    requires Inv(cfg, p) && b.contents == p.b.contents && b.size == p.b.size && b.watershed == p.b.watershed
    ensures Inv(cfg, p.(b := b))
  {
    SilentStepKeeps(cfg, p, p.(b := b));
  }

  lemma DeliverKeepsChunks(cfg: Config, p: Pipe, p': Pipe)
    requires ChunksOk(cfg, p) && StreamOk(cfg, p) && SyncOk(cfg, p) && p.sync.None? && p'.b.size == p.b.size
    requires p'.chunks == p.chunks + [Chunk(p.b.contents, p.records, p.log)]
    ensures ChunksOk(cfg, p') && ChunkLogs(p'.chunks) == ChunkLogs(p.chunks) + p.log
  {
    assert p'.chunks[..|p'.chunks| - 1] == p.chunks;
  }

  lemma DeliverKeeps(cfg: Config, p: Pipe, b: Buffer)
    requires Inv(cfg, p) && p.sync.None?
    requires b.contents == [] && b.size == p.b.size && b.watershed == p.b.watershed
    ensures Inv(cfg, p.(b := b, records := [], heard := DECODER_INIT, log := [],
                        chunks := p.chunks + [Chunk(p.b.contents, p.records, p.log)]))
  {
    var p' := p.(b := b, records := [], heard := DECODER_INIT, log := [],
                 chunks := p.chunks + [Chunk(p.b.contents, p.records, p.log)]);
    DeliverKeepsChunks(cfg, p, p');
    assert CpusOk(cfg, p') by { SameRings(cfg, p, p'); }
    assert LogsOk(p') by {
      assert ChunkLogs(p.chunks) + p.log + [] + [] == ChunkLogs(p.chunks) + p.log;
      SameLogs(p, p');
    }
    assert SyncOk(cfg, p');
  }

  lemma ReaderReadsKeeps(cfg: Config, p: Pipe, e: Event)
    requires Inv(cfg, p) && Enabled(cfg, p, e) && e.ReaderReads?
    ensures Inv(cfg, Next(cfg, p, e))
  {
    var (b, r) := Read(p.b, e.words, e.offset, e.signal, e.copyOk);
    if r.Words? {
      DeliverKeeps(cfg, p, b);
    } else {
      BufferKeeps(cfg, p, b);
    }
  }

  lemma NextKeeps(cfg: Config, p: Pipe, e: Event)
    requires Inv(cfg, p) && Enabled(cfg, p, e)
    ensures Inv(cfg, Next(cfg, p, e))
  {
    match e {
      case Produce(c, call) => ProduceKeeps(cfg, p, c, call);
      case BeginSync(c) => BeginSyncKeeps(cfg, p, c);
      case ReadHead => ReadHeadKeeps(cfg, p);
      case ResetMode => ResetKeeps(cfg, p, e);
      case ResetTask => ResetKeeps(cfg, p, e);
      case DrainOne => DrainOneKeeps(cfg, p);
      case EndSync => EndSyncKeeps(cfg, p);
      case EmitAdapt(v) => EmitAdaptKeeps(cfg, p, v);
      case ReaderReads(_, _, _, _) => ReaderReadsKeeps(cfg, p, e);
      case WakeReader => BufferKeeps(cfg, p, WakeUp(p.b));
    }
  }

  // ---- runs ----

  function FreshCpu(size: nat): Cpu {
    Cpu(Queue([], size, -1, None, false, Stats(0, 0, 0, 0)), [], [], [], [])
  }

  /** How many CPUs there are, and how large the rings and the event buffer were made. */
  datatype Sizes = Sizes(cpus: nat, ring: nat, buffer: nat, watershed: nat)

  /** After alloc_cpu_buffers and alloc_event_buffer. */
  function Fresh(z: Sizes): Pipe {
    Pipe(seq(z.cpus, _ => FreshCpu(z.ring)), None, Buffer(z.buffer, z.watershed, [], false, false, 0),
         [], DECODER_INIT, [], [], [])
  }

  lemma FreshInv(cfg: Config, z: Sizes)
    requires z.cpus <= cfg.arch.WordLimit() && z.ring > 0 && z.watershed < z.buffer
    ensures Inv(cfg, Fresh(z))
  {
  }

  predicate Possible(cfg: Config, p: Pipe, es: seq<Event>)
    decreases |es|, 0
  {
    es == [] || (Possible(cfg, p, es[..|es| - 1]) && Enabled(cfg, After(cfg, p, es[..|es| - 1]), es[|es| - 1]))
  }

  function After(cfg: Config, p: Pipe, es: seq<Event>): Pipe
    requires Possible(cfg, p, es)
    decreases |es|, 1
  {
    if es == [] then p else Next(cfg, After(cfg, p, es[..|es| - 1]), es[|es| - 1])
  }

  lemma {:induction false} AlwaysInv(cfg: Config, p: Pipe, es: seq<Event>)
    requires Inv(cfg, p) && Possible(cfg, p, es)
    ensures Inv(cfg, After(cfg, p, es))
  {
    if es != [] {
      AlwaysInv(cfg, p, es[..|es| - 1]);
      NextKeeps(cfg, After(cfg, p, es[..|es| - 1]), es[|es| - 1]);
    }
  }

  /** A run from the allocation of the buffers on. */
  predicate Run(cfg: Config, z: Sizes, es: seq<Event>) {
    && z.cpus <= cfg.arch.WordLimit() && z.ring > 0 && z.watershed < z.buffer
    && Possible(cfg, Fresh(z), es)
  }

  function Reached(cfg: Config, z: Sizes, es: seq<Event>): Pipe
    requires Run(cfg, z, es)
  {
    After(cfg, Fresh(z), es)
  }

  lemma ReachedInv(cfg: Config, z: Sizes, es: seq<Event>)
    requires Run(cfg, z, es)
    ensures Inv(cfg, Reached(cfg, z, es))
  {
    FreshInv(cfg, z);
    AlwaysInv(cfg, Fresh(z), es);
  }

  /** The rings are first-in first-out in every run in which calls have room: what has been
    * consumed is always a prefix of what has been produced, the rest is pending in order,
    * and it fits. */
  lemma RingsAreFifo(cfg: Config, z: Sizes, es: seq<Event>, c: nat)
    requires Run(cfg, z, es) && c < |Reached(cfg, z, es).cpus|
    ensures var cpu := Reached(cfg, z, es).cpus[c];
            && cpu.consumed <= cpu.produced
            && cpu.q.pending == cpu.produced[|cpu.consumed|..]
            && |cpu.q.pending| < cpu.q.size
  {
    ReachedInv(cfg, z, es);
    InvIsFifo(cfg, Reached(cfg, z, es), c);
  }

  /** What the daemon decodes from the words of one read. */
  function ToldBy(cfg: Config, k: Chunk): seq<Decoded> {
    DecodeAll(DECODER_INIT, Parse(cfg.arch, k.words).records).out
  }

  /** Of a chunk as it was read: its words parse to its first `m` records and at most one cut
    * one, and what they tell is what all the records tell, broken off if words were
    * dropped. */
  lemma ChunkIsTold(cfg: Config, size: nat, k: Chunk) returns (m: nat)
    requires ChunkOk(cfg, size, k)
    ensures ParsesUpTo(cfg.arch, k.records, k.words, m)
    ensures BrokenOff(ToldBy(cfg, k), DecodeAll(DECODER_INIT, k.records).out)
    ensures |k.words| == |PrintAll(cfg.arch, k.records)| ==> ToldBy(cfg, k) == DecodeAll(DECODER_INIT, k.records).out
  {
    var ws := PrintAll(cfg.arch, k.records);
    assert k.words == ws[..|k.words|];
    m := PrefixParses(cfg.arch, k.records, |k.words|);
    PrefixIsBrokenOff(DECODER_INIT, k.records, m);
    if |k.words| == |ws| {
      assert k.words == ws;
      RoundTrip(cfg.arch, k.records);
    }
  }

  /** End to end. Whatever order the interrupts, syncs, adaptations and reads come in, the
    * words of each read parse to the records emitted since the read before, as far as they
    * fitted, and at most one cut record. If none were dropped, what the daemon decodes from
    * the words is exactly what the samples logged are known by, in order: every clean sample
    * with its mode, tgid and tid and its chain up to a null pc; one logged between a head
    * read and the end of its reset with just what was noted with it or told by the entries
    * behind the head, so it may be missing or have unknowns but is never misattributed. If
    * words were dropped, it is that, broken off. */
  lemma EndToEnd(cfg: Config, z: Sizes, es: seq<Event>, i: nat) returns (m: nat)
    requires Run(cfg, z, es) && i < |Reached(cfg, z, es).chunks|
    ensures var k := Reached(cfg, z, es).chunks[i];
            var whole := DecodeAll(DECODER_INIT, k.records).out;
            && ParsesUpTo(cfg.arch, k.records, k.words, m)
            && Explains(k.log, whole)
            && BrokenOff(ToldBy(cfg, k), whole)
            && (|k.words| == |PrintAll(cfg.arch, k.records)| ==> ToldBy(cfg, k) == whole)
  {
    ReachedInv(cfg, z, es);
    var p := Reached(cfg, z, es);
    assert ChunkOk(cfg, p.b.size, p.chunks[i]);
    m := ChunkIsTold(cfg, p.b.size, p.chunks[i]);
  }

  /** Nothing logged goes missing on the way to the stream: the samples of the chunks read,
    * of the batches since, of the batch under way and those not yet taken up are, on each
    * CPU, all the samples it ever logged, in order. */
  lemma EverySampleIsOnItsWay(cfg: Config, z: Sizes, es: seq<Event>, c: nat)
    requires Run(cfg, z, es) && c < |Reached(cfg, z, es).cpus|
    ensures var p := Reached(cfg, z, es);
            OfCpu(c, ChunkLogs(p.chunks) + p.log + SyncLog(p)) + p.cpus[c].next == p.cpus[c].logged
  {
    ReachedInv(cfg, z, es);
  }

  /** If no sample fell between a head read and its reset, the daemon learns the whole
    * truth. */
  lemma WholeTruth(cfg: Config, z: Sizes, es: seq<Event>, i: nat)
    requires Run(cfg, z, es) && i < |Reached(cfg, z, es).chunks|
    ensures var k := Reached(cfg, z, es).chunks[i];
            |k.words| == |PrintAll(cfg.arch, k.records)| && (forall l :: l in k.log ==> l.clean) ==>
              ToldBy(cfg, k) == TruthAll(k.log)
  {
    var m := EndToEnd(cfg, z, es, i);
    var k := Reached(cfg, z, es).chunks[i];
    if forall l :: l in k.log ==> l.clean {
      CleanIsExact(k.log);
    }
  }
}
