/** What the records mean to the daemon, and why each sample comes back attributed to the
  * mode and the process it was taken in. */
module Attribution {
  import opened Sequences
  import opened Wrappers
  import opened EventStream
  import opened CpuBuffer
  import opened BufferSync

  /** One sample as the daemon sees it, with what it knows about it. */
  datatype Decoded = Decoded(cpu: Option<nat>, kernel: Option<bool>, task: Option<(nat, nat)>,
                             pc: nat, event: nat, chain: seq<nat>)

  datatype TraceState = Outside | AwaitingPc | InChain

  datatype Decoder = Decoder(cpu: Option<nat>, kernel: Option<bool>, task: Option<(nat, nat)>,
                             trace: TraceState, out: seq<Decoded>)

  const DECODER_INIT := Decoder(None, None, None, Outside, [])

  function LeaveChain(t: TraceState): TraceState { if t.InChain? then Outside else t }

  /** The daemon forgets mode and task at a CPU switch, opens a trace at a trace-begin, and
    * takes the samples that follow a trace's first one without a break for its callers. */
  function DecodeOne(d: Decoder, r: Record): Decoder {
    match r
    case CpuSwitch(cpu) => Decoder(Some(cpu), None, None, Outside, d.out)
    case KernelEnter => d.(kernel := Some(true), trace := LeaveChain(d.trace))
    case KernelExit => d.(kernel := Some(false), trace := LeaveChain(d.trace))
    case CtxSwitch(tid, tgid) => d.(task := Some((tgid, tid)), trace := LeaveChain(d.trace))
    case TraceBegin => d.(trace := AwaitingPc)
    case Timestamp(_, _) => d.(trace := Outside)
    case Adapt(_) => d
    case Sample(pc, event) =>
      if d.trace.InChain? && d.out != [] then
        d.(out := Extend(d.out, [pc]))
      else
        d.(out := d.out + [Decoded(d.cpu, d.kernel, d.task, pc, event, [])],
           trace := if d.trace == AwaitingPc then InChain else Outside)
  }

  /** The chain of the last sample goes on with `pcs`. */
  function Extend(out: seq<Decoded>, pcs: seq<nat>): (r: seq<Decoded>)
    requires out != []
    ensures |r| == |out|
  {
    var n := |out| - 1;
    out[..n] + [out[n].(chain := out[n].chain + pcs)]
  }

  lemma ExtendTwice(out: seq<Decoded>, xs: seq<nat>, ys: seq<nat>)
    requires out != []
    ensures Extend(out, []) == out
    ensures Extend(Extend(out, xs), ys) == Extend(out, xs + ys)
  {
    var n := |out| - 1;
    assert out[n].chain + [] == out[n].chain;
    assert out[n].chain + xs + ys == out[n].chain + (xs + ys);
  }

  function DecodeAll(d: Decoder, rs: seq<Record>): Decoder {
    if rs == [] then d else DecodeOne(DecodeAll(d, rs[..|rs| - 1]), rs[|rs| - 1])
  }

  lemma {:induction false} DecodeAllConcat(d: Decoder, xs: seq<Record>, ys: seq<Record>)
    ensures DecodeAll(d, xs + ys) == DecodeAll(DecodeAll(d, xs), ys)
  {
    if ys == [] {
      assert xs + ys == xs;
    } else {
      DecodeAllConcat(d, xs, ys[..|ys| - 1]);
      assert (xs + ys)[..|xs + ys| - 1] == xs + ys[..|ys| - 1];
    }
  }

  lemma DecodeAllOne(d: Decoder, r: Record)
    ensures DecodeAll(d, [r]) == DecodeOne(d, r)
  {
    assert [r][..0] == [];
  }

  /** A sample as it was logged, with the truth about it, and with how much of the truth the
    * entries up to it tell: its mode, its process, and whether it is shown at all. `clean`
    * says that it was logged when no head read was waiting for its reset to complete. */
  datatype Logged = Logged(cpu: nat, pc: nat, event: nat, kernel: bool, tgid: nat, tid: nat, chain: seq<nat>,
                           clean: bool, modeKnown: bool, taskKnown: bool, shown: bool)

  /** The chain up to the first null pc, where the daemon's trace ends. */
  function UpToNull(chain: seq<nat>): (r: seq<nat>)
    ensures r <= chain && 0 !in r && (|r| < |chain| ==> chain[|r|] == 0)
  {
    if chain == [] || chain[0] == 0 then [] else [chain[0]] + UpToNull(chain[1..])
  }

  /** What the daemon gets to know of a sample: what it is told is true, the rest unknown. */
  function Told(l: Logged): seq<Decoded> {
    if !l.shown then []
    else [Decoded(Some(l.cpu), if l.modeKnown then Some(l.kernel) else None,
                  if l.taskKnown then Some((l.tgid, l.tid)) else None, l.pc, l.event, UpToNull(l.chain))]
  }

  function ToldAll(log: seq<Logged>): seq<Decoded> {
    if log == [] then [] else ToldAll(log[..|log| - 1]) + Told(log[|log| - 1])
  }

  lemma {:induction false} ToldAllConcat(xs: seq<Logged>, ys: seq<Logged>)
    ensures ToldAll(xs + ys) == ToldAll(xs) + ToldAll(ys)
  {
    if ys == [] {
      assert xs + ys == xs;
    } else {
      var init := ys[..|ys| - 1];
      ToldAllConcat(xs, init);
      assert (xs + ys)[..|xs + ys| - 1] == xs + init && (xs + ys)[|xs + ys| - 1] == ys[|ys| - 1];
      Assoc(ToldAll(xs), ToldAll(init), Told(ys[|ys| - 1]));
    }
  }

  /** No sample with a null pc is shown, and a clean one is told in full. */
  predicate Faithful(l: Logged) {
    && (l.shown ==> l.pc != 0)
    && (l.clean ==> l.modeKnown && l.taskKnown && (l.shown <==> l.pc != 0))
  }

  predicate AllFaithful(log: seq<Logged>) {
    log == [] || (AllFaithful(log[..|log| - 1]) && Faithful(log[|log| - 1]))
  }

  lemma {:induction false} AllFaithfulConcat(xs: seq<Logged>, ys: seq<Logged>)
    requires AllFaithful(xs) && AllFaithful(ys)
    ensures AllFaithful(xs + ys)
  {
    if ys == [] {
      assert xs + ys == xs;
    } else {
      AllFaithfulConcat(xs, ys[..|ys| - 1]);
      assert (xs + ys)[..|xs + ys| - 1] == xs + ys[..|ys| - 1];
    }
  }

  /** The decoded samples are the logged ones, in order, each told exactly as far as it is
    * known, and every clean one in full. */
  predicate Explains(log: seq<Logged>, out: seq<Decoded>) {
    out == ToldAll(log) && AllFaithful(log)
  }

  lemma ExplainsConcat(log1: seq<Logged>, out1: seq<Decoded>, log2: seq<Logged>, out2: seq<Decoded>)
    requires Explains(log1, out1) && Explains(log2, out2)
    ensures Explains(log1 + log2, out1 + out2)
  {
    ToldAllConcat(log1, log2);
    AllFaithfulConcat(log1, log2);
  }

  /** The whole truth about a sample. */
  function Truth(l: Logged): seq<Decoded> {
    if l.pc == 0 then []
    else [Decoded(Some(l.cpu), Some(l.kernel), Some((l.tgid, l.tid)), l.pc, l.event, UpToNull(l.chain))]
  }

  function TruthAll(log: seq<Logged>): seq<Decoded> {
    if log == [] then [] else TruthAll(log[..|log| - 1]) + Truth(log[|log| - 1])
  }

  /** Where every sample is clean, the decoded samples are the whole truth. */
  lemma {:induction false} CleanIsExact(log: seq<Logged>)
    requires AllFaithful(log) && forall l :: l in log ==> l.clean
    ensures ToldAll(log) == TruthAll(log)
  {
    if log != [] {
      CleanIsExact(log[..|log| - 1]);
      assert log[|log| - 1] in log;
    }
  }

  // ---- following the entries of a batch through sync_buffer and the decoder ----

  datatype View = View(s: SyncState, d: Decoder)

  function ThroughOne(a: Arch, v: View, e: OpSample): View {
    var rs := EmitOne(a, v.s, e);
    View(SyncStep(a, v.s, e), if rs == [] then v.d else DecodeOne(v.d, rs[0]))
  }

  function Through(a: Arch, v: View, es: seq<OpSample>): View {
    if es == [] then v else ThroughOne(a, Through(a, v, es[..|es| - 1]), es[|es| - 1])
  }

  /** Entry by entry or batch by batch, the daemon hears the same. */
  lemma {:induction false} ThroughIsSyncThenDecode(a: Arch, v: View, es: seq<OpSample>)
    ensures Through(a, v, es) == View(SyncAll(a, v.s, es), DecodeAll(v.d, EmitAll(a, v.s, es)))
  {
    if es != [] {
      var init, e := es[..|es| - 1], es[|es| - 1];
      var w := View(SyncAll(a, v.s, init), DecodeAll(v.d, EmitAll(a, v.s, init)));
      ThroughIsSyncThenDecode(a, v, init);
      EmittedThrough(a, v.d, EmitAll(a, v.s, init), w.s, e);
    }
  }

  lemma EmittedThrough(a: Arch, d: Decoder, rs: seq<Record>, s: SyncState, e: OpSample)
    ensures DecodeAll(d, rs + EmitOne(a, s, e)) == ThroughOne(a, View(s, DecodeAll(d, rs)), e).d
  {
    var more := EmitOne(a, s, e);
    DecodeAllConcat(d, rs, more);
    if more != [] {
      assert more == [more[0]];
      DecodeAllOne(DecodeAll(d, rs), more[0]);
    }
  }

  lemma {:induction false} ThroughConcat(a: Arch, v: View, xs: seq<OpSample>, ys: seq<OpSample>)
    ensures Through(a, v, xs + ys) == Through(a, Through(a, v, xs), ys)
  {
    if ys == [] {
      assert xs + ys == xs;
    } else {
      ThroughConcat(a, v, xs, ys[..|ys| - 1]);
      assert (xs + ys)[..|xs + ys| - 1] == xs + ys[..|ys| - 1];
    }
  }

  lemma ThroughSingle(a: Arch, v: View, e: OpSample)
    ensures Through(a, v, [e]) == ThroughOne(a, v, e)
  {
    assert [e][..0] == [];
  }

  /** At the start of a batch. */
  function BatchView(cpu: nat, out: seq<Decoded>): View {
    View(SYNC_INIT, Decoder(Some(cpu), None, None, Outside, out))
  }

  /** What the producer remembers agrees with what a reader of the batch so far would know:
    * never differs from it, and once last_is_kernel (or last_task) has been reset since the
    * head read, is known to the reader whenever the producer would not note it again. */
  predicate Agrees(bt: bool, cpu: nat, modeReset: bool, taskReset: bool,
                   lastIsKernel: int, lastTask: Option<Task>, v: View)
  {
    && -1 <= lastIsKernel <= 1
    && v.d.cpu == Some(cpu)
    && (!bt ==> v.s.phase in {BufferStart, SampleStart} && v.d.trace == Outside)
    && (lastIsKernel != -1 ==>
          && v.d.kernel in {None, Some(lastIsKernel == 1)}
          && (modeReset ==> v.d.kernel.Some? && v.s.phase != BufferStart))
    && (lastTask.Some? ==>
          && v.d.task in {None, Some((lastTask.value.tgid, lastTask.value.pid))}
          && (taskReset ==> v.d.task.Some?))
  }

  /** What a reader of a batch so far has been told since its start: the mode, the process,
    * and anything that lets samples through at all. */
  datatype Known = Known(mode: bool, task: bool, begun: bool)

  function KnownTo(v: View): Known {
    Known(v.d.kernel.Some?, v.d.task.Some?, v.s.phase != BufferStart)
  }

  predicate TellsMode(a: Arch, es: seq<OpSample>) { exists e :: e in es && IsModeNote(a, e) }
  predicate TellsTask(a: Arch, es: seq<OpSample>) { exists e :: e in es && IsTaskNote(a, e) }
  predicate TellsTrace(a: Arch, es: seq<OpSample>) { exists e :: e in es && IsTraceBegin(a, e) }
  predicate IsTaskNote(a: Arch, e: OpSample) { IsCode(a, e) && e.event == RR_CPU_CTX_TID }

  /** The same, said of the entries of the batch so far. */
  function KnownFrom(a: Arch, es: seq<OpSample>): Known {
    Known(TellsMode(a, es), TellsTask(a, es), TellsMode(a, es) || TellsTrace(a, es))
  }

  /** The same again with one more entry. */
  function KnownWith(a: Arch, k: Known, e: OpSample): Known {
    Known(k.mode || IsModeNote(a, e), k.task || IsTaskNote(a, e),
          k.begun || IsModeNote(a, e) || IsTraceBegin(a, e))
  }

  lemma KnownSnoc(a: Arch, es: seq<OpSample>, e: OpSample)
    ensures KnownFrom(a, es + [e]) == KnownWith(a, KnownFrom(a, es), e)
  {
    assert e in es + [e];
  }

  lemma OneTells(a: Arch, v: View, e: OpSample)
    ensures KnownTo(ThroughOne(a, v, e)) == KnownWith(a, KnownTo(v), e)
  {
  }

  lemma {:induction false} EntriesTell(a: Arch, cpu: nat, out: seq<Decoded>, es: seq<OpSample>)
    ensures KnownTo(Through(a, BatchView(cpu, out), es)) == KnownFrom(a, es)
  {
    if es != [] {
      var init, e := es[..|es| - 1], es[|es| - 1];
      EntriesTell(a, cpu, out, init);
      assert es == init + [e];
      KnownSnoc(a, init, e);
      OneTells(a, Through(a, BatchView(cpu, out), init), e);
    }
  }

  predicate NotesMode(q: Queue, c: Call)
    requires c.ExtSample?
  {
    q.lastIsKernel != KernelFlag(c.kernel)
  }

  predicate NotesTask(q: Queue, c: Call)
    requires c.ExtSample?
  {
    q.lastTask != Some(c.task)
  }

  /** The record of an accepted sample behind entries that tell `k`. */
  function LogAs(bt: bool, cpu: nat, clean: bool, k: Known, q: Queue, c: Call, chain: seq<nat>): Logged
    requires c.ExtSample?
  {
    Logged(cpu, c.pc, c.event, c.kernel, c.task.tgid, c.task.pid, chain, clean,
           k.mode || NotesMode(q, c), k.task || NotesTask(q, c), c.pc != 0 && (bt || k.begun || NotesMode(q, c)))
  }

  function LogOf(a: Arch, bt: bool, cpu: nat, clean: bool, k: Known, q: Queue, c: Call): seq<Logged> {
    if Accepted(a, bt, q, c) then [LogAs(bt, cpu, clean, k, q, c, AcceptedChain(a, bt, q, c))] else []
  }

  lemma ChainSplit(a: Arch, v: View, chain: seq<nat>)
    requires chain != []
    ensures Through(a, v, ChainEntries(chain))
         == Through(a, ThroughOne(a, v, OpSample(chain[0], 0, 0)), ChainEntries(chain[1..]))
  {
    var e := OpSample(chain[0], 0, 0);
    ChainEntriesSplit(chain);
    ThroughConcat(a, v, [e], ChainEntries(chain[1..]));
    ThroughSingle(a, v, e);
  }

  /** The logged callers, read behind the pc of their trace. */
  lemma {:induction false} ChainThrough(a: Arch, v: View, chain: seq<nat>)
    requires v.s.phase == BtStart && v.d.trace == InChain && v.d.out != [] && a.Escape() !in chain
    ensures var v' := Through(a, v, ChainEntries(chain));
            && v'.d == v.d.(out := Extend(v.d.out, UpToNull(chain)))
            && v'.s.phase in {BtStart, BtIgnore}
    decreases |chain|
  {
    if chain == [] {
      ExtendTwice(v.d.out, [], []);
    } else {
      var e := OpSample(chain[0], 0, 0);
      ChainSplit(a, v, chain);
      var w := ThroughOne(a, v, e);
      if chain[0] == 0 {
        ExtendTwice(v.d.out, [], []);
        IgnoredThrough(a, w, chain[1..]);
      } else {
        ChainThrough(a, w, chain[1..]);
        ExtendTwice(v.d.out, [chain[0]], UpToNull(chain[1..]));
      }
    }
  }

  /** Behind a null pc, callers are ignored. */
  lemma {:induction false} IgnoredThrough(a: Arch, v: View, chain: seq<nat>)
    requires v.s.phase == BtIgnore && a.Escape() !in chain
    ensures Through(a, v, ChainEntries(chain)) == v
    decreases |chain|
  {
    if chain != [] {
      var e := OpSample(chain[0], 0, 0);
      ChainSplit(a, v, chain);
      IgnoredThrough(a, v, chain[1..]);
    }
  }

  // The notes and the sample as the reader takes them, in closed form.

  function ReadMode(v: View, q: Queue, kernel: bool): View {
    if q.lastIsKernel == KernelFlag(kernel) then v
    else View(v.s.(phase := if v.s.phase == BufferStart then SampleStart else v.s.phase),
              v.d.(kernel := Some(kernel)))
  }

  function ReadTask(v: View, q: Queue, task: Task): View {
    if q.lastTask == Some(task) then v
    else View(v.s.(tgid := task.tgid), v.d.(task := Some((task.tgid, task.pid))))
  }

  function ReadNoted(a: Arch, v: View, q: Queue, c: Call): View
    requires c.ExtSample?
  {
    ThroughOne(a, ReadTask(ReadMode(v, q, c.kernel), q, c.task), OpSample(c.pc, c.event, 0))
  }

  /** The mode note, read. */
  lemma ModeThrough(a: Arch, v: View, q: Queue, kernel: bool)
    requires v.d.trace != InChain
    ensures Through(a, v, ModeNotes(a, q, kernel)) == ReadMode(v, q, kernel)
  {
    if q.lastIsKernel != KernelFlag(kernel) {
      ThroughSingle(a, v, Code(a, KernelFlag(kernel), 0));
    }
  }

  /** The pair of task notes, read. */
  lemma TaskThrough(a: Arch, v: View, q: Queue, task: Task)
    requires v.d.trace != InChain
    requires task.tgid < a.WordLimit() && task.pid < a.WordLimit()
    ensures Through(a, v, TaskNotes(a, q, task)) == ReadTask(v, q, task)
  {
    if q.lastTask != Some(task) {
      var g, t := Code(a, RR_CPU_CTX_TGID, task.tgid), Code(a, RR_CPU_CTX_TID, task.pid);
      assert TaskNotes(a, q, task) == [g] + [t];
      ThroughConcat(a, v, [g], [t]);
      ThroughSingle(a, v, g);
      var w := View(v.s.(tgid := task.tgid), v.d);
      assert ThroughOne(a, v, g) == w;
      ThroughSingle(a, w, t);
    }
  }

  /** An accepted sample with its notes, read. */
  lemma NotedThrough(a: Arch, q: Queue, v: View, c: Call)
    requires c.ExtSample? && Sane(a, c) && v.d.trace != InChain
    ensures Through(a, v, NotedSample(a, q, c.pc, c.event, c.kernel, c.task)) == ReadNoted(a, v, q, c)
  {
    var m, t, e := ModeNotes(a, q, c.kernel), TaskNotes(a, q, c.task), OpSample(c.pc, c.event, 0);
    var v1 := ReadMode(v, q, c.kernel);
    calc {
      Through(a, v, m + t + [e]);
    ==  { ThroughConcat(a, v, m + t, [e]); }
      Through(a, Through(a, v, m + t), [e]);
    ==  { ThroughConcat(a, v, m, t); }
      Through(a, Through(a, Through(a, v, m), t), [e]);
    ==  { ModeThrough(a, v, q, c.kernel); TaskThrough(a, v1, q, c.task); }
      Through(a, ReadTask(v1, q, c.task), [e]);
    ==  { ThroughSingle(a, ReadTask(v1, q, c.task), e); }
      ReadNoted(a, v, q, c);
    }
  }

  /** A sample read with its notes: it is told exactly as far as it is known, and producer
    * and reader still agree. */
  lemma NotedIsTold(a: Arch, bt: bool, cpu: nat, modeReset: bool, taskReset: bool, k: Known, q: Queue, v: View, c: Call)
    requires Agrees(bt, cpu, modeReset, taskReset, q.lastIsKernel, q.lastTask, v) && c.ExtSample? && c.pc != a.Escape()
    requires bt ==> v.s.phase == BtStart && v.d.trace == AwaitingPc
    requires KnownTo(v).mode == k.mode && KnownTo(v).task == k.task && (!bt ==> KnownTo(v).begun == k.begun)
    ensures var l := LogAs(bt, cpu, modeReset && taskReset, k, q, c, []);
            var w := ReadNoted(a, v, q, c);
            && Agrees(bt, cpu, modeReset, taskReset, KernelFlag(c.kernel), Some(c.task), w)
            && w.d.out == v.d.out + Told(l)
            && (bt ==> if c.pc == 0 then w.s.phase == BtIgnore else w.s.phase == BtStart && w.d.trace == InChain)
  {
    assert v.d.out + [] == v.d.out;
  }

  /** A reader in agreement with a producer that has been reset lacks nothing. */
  lemma CleanIsKnown(bt: bool, cpu: nat, modeReset: bool, taskReset: bool, q: Queue, v: View, c: Call, chain: seq<nat>)
    requires Agrees(bt, cpu, modeReset, taskReset, q.lastIsKernel, q.lastTask, v) && c.ExtSample?
    ensures Faithful(LogAs(bt, cpu, modeReset && taskReset, KnownTo(v), q, c, chain))
  {
  }

  /** The callers complete the sample they belong to. */
  lemma ChainIsTold(l: Logged, out: seq<Decoded>, chain: seq<nat>)
    requires l.chain == [] && l.shown
    ensures Extend(out + Told(l), UpToNull(chain)) == out + Told(l.(chain := chain))
  {
    assert [] + UpToNull(chain) == UpToNull(chain);
    assert (out + Told(l))[..|out|] == out;
  }

  /** The step of the attribution argument: whatever one producer call appends, the daemon is
    * told exactly what was logged, as far as it can know, and producer and reader still
    * agree. */
  predicate ReadsWell(a: Arch, bt: bool, cpu: nat, modeReset: bool, taskReset: bool, q: Queue, v: View, c: Call) {
    var v' := Through(a, v, Appended(a, bt, q, c));
    var log := LogOf(a, bt, cpu, modeReset && taskReset, KnownTo(v), q, c);
    && (if Accepted(a, bt, q, c)
        then Agrees(bt, cpu, modeReset, taskReset, KernelFlag(c.kernel), Some(c.task), v')
        else Agrees(bt, cpu, modeReset, taskReset, q.lastIsKernel, q.lastTask, v'))
    && v'.d.out == v.d.out + ToldAll(log)
    && AllFaithful(log)
  }

  lemma ToldAllOne(l: Logged)
    ensures ToldAll([l]) == Told(l)
    ensures AllFaithful([l]) <==> Faithful(l)
  {
    assert [l][..0] == [] && [] + Told(l) == Told(l);
  }

  lemma StampReadsWell(a: Arch, bt: bool, cpu: nat, modeReset: bool, taskReset: bool, q: Queue, v: View, c: Call)
    requires Agrees(bt, cpu, modeReset, taskReset, q.lastIsKernel, q.lastTask, v) && c.Stamp?
    ensures ReadsWell(a, bt, cpu, modeReset, taskReset, q, v, c)
  {
    ThroughSingle(a, v, Code(a, StampEvent(c.kind), c.time));
    assert v.d.out + [] == v.d.out;
  }

  lemma PlainReadsWell(a: Arch, cpu: nat, modeReset: bool, taskReset: bool, q: Queue, v: View, c: Call)
    requires Agrees(false, cpu, modeReset, taskReset, q.lastIsKernel, q.lastTask, v)
    requires c.ExtSample? && Sane(a, c) && Accepted(a, false, q, c)
    ensures ReadsWell(a, false, cpu, modeReset, taskReset, q, v, c)
  {
    var l := LogAs(false, cpu, modeReset && taskReset, KnownTo(v), q, c, []);
    assert Appended(a, false, q, c) == NotedSample(a, q, c.pc, c.event, c.kernel, c.task);
    assert LogOf(a, false, cpu, modeReset && taskReset, KnownTo(v), q, c) == [l];
    NotedThrough(a, q, v, c);
    NotedIsTold(a, false, cpu, modeReset, taskReset, KnownTo(v), q, v, c);
    CleanIsKnown(false, cpu, modeReset, taskReset, q, v, c, []);
    ToldAllOne(l);
  }

  lemma BeginThrough(a: Arch, v: View)
    ensures ThroughOne(a, v, Code(a, CPU_TRACE_BEGIN, 0)) == View(v.s.(phase := BtStart), v.d.(trace := AwaitingPc))
  {
  }

  lemma InThree(a: Arch, v: View, e: OpSample, ys: seq<OpSample>, zs: seq<OpSample>)
    ensures Through(a, v, [e] + (ys + zs)) == Through(a, Through(a, ThroughOne(a, v, e), ys), zs)
  {
    ThroughConcat(a, v, [e], ys + zs);
    ThroughSingle(a, v, e);
    ThroughConcat(a, ThroughOne(a, v, e), ys, zs);
  }

  /** The entries of a traced call, read one part after the other. */
  lemma TraceThrough(a: Arch, q: Queue, v: View, c: Call)
    requires c.ExtSample? && Sane(a, c) && Accepted(a, true, q, c)
    ensures var v1 := View(v.s.(phase := BtStart), v.d.(trace := AwaitingPc));
            Through(a, v, Appended(a, true, q, c))
            == Through(a, ReadNoted(a, v1, q, c), ChainEntries(AcceptedChain(a, true, q, c)))
  {
    var noted, chain := NotedSample(a, q, c.pc, c.event, c.kernel, c.task), ChainEntries(AcceptedChain(a, true, q, c));
    var v1 := View(v.s.(phase := BtStart), v.d.(trace := AwaitingPc));
    AppendedTrace(a, q, c);
    InThree(a, v, Code(a, CPU_TRACE_BEGIN, 0), noted, chain);
    BeginThrough(a, v);
    NotedThrough(a, q, v1, c);
  }

  /** The callers of a sample just read leave all but its chain as it is. */
  lemma CallersThrough(a: Arch, cpu: nat, modeReset: bool, taskReset: bool,
                       w: View, out: seq<Decoded>, l: Logged, mode: int, task: Option<Task>, chain: seq<nat>)
    requires a.Escape() !in chain && l.chain == [] && w.d.out == out + Told(l) && (l.shown <==> l.pc != 0)
    requires Agrees(true, cpu, modeReset, taskReset, mode, task, w)
    requires if l.pc == 0 then w.s.phase == BtIgnore else w.s.phase == BtStart && w.d.trace == InChain
    ensures var v' := Through(a, w, ChainEntries(chain));
            && Agrees(true, cpu, modeReset, taskReset, mode, task, v')
            && v'.d.out == out + Told(l.(chain := chain))
  {
    if l.pc == 0 {
      IgnoredThrough(a, w, chain);
    } else {
      ChainIsTold(l, out, chain);
      ChainThrough(a, w, chain);
    }
  }

  lemma TracedIsTold(a: Arch, cpu: nat, modeReset: bool, taskReset: bool, q: Queue, v: View, c: Call)
    requires Agrees(true, cpu, modeReset, taskReset, q.lastIsKernel, q.lastTask, v)
    requires c.ExtSample? && Sane(a, c) && Accepted(a, true, q, c)
    ensures var l := LogAs(true, cpu, modeReset && taskReset, KnownTo(v), q, c, AcceptedChain(a, true, q, c));
            var v' := Through(a, v, Appended(a, true, q, c));
            && Agrees(true, cpu, modeReset, taskReset, KernelFlag(c.kernel), Some(c.task), v')
            && v'.d.out == v.d.out + Told(l)
  {
    var v1 := View(v.s.(phase := BtStart), v.d.(trace := AwaitingPc));
    var l := LogAs(true, cpu, modeReset && taskReset, KnownTo(v), q, c, []);
    TraceThrough(a, q, v, c);
    NotedIsTold(a, true, cpu, modeReset, taskReset, KnownTo(v), q, v1, c);
    CallersThrough(a, cpu, modeReset, taskReset, ReadNoted(a, v1, q, c), v.d.out, l,
                   KernelFlag(c.kernel), Some(c.task), AcceptedChain(a, true, q, c));
  }

  lemma TracedReadsWell(a: Arch, cpu: nat, modeReset: bool, taskReset: bool, q: Queue, v: View, c: Call)
    requires Agrees(true, cpu, modeReset, taskReset, q.lastIsKernel, q.lastTask, v)
    requires c.ExtSample? && Sane(a, c) && Accepted(a, true, q, c)
    ensures ReadsWell(a, true, cpu, modeReset, taskReset, q, v, c)
  {
    var l := LogAs(true, cpu, modeReset && taskReset, KnownTo(v), q, c, AcceptedChain(a, true, q, c));
    TracedIsTold(a, cpu, modeReset, taskReset, q, v, c);
    CleanIsKnown(true, cpu, modeReset, taskReset, q, v, c, AcceptedChain(a, true, q, c));
    ToldAllOne(l);
    assert LogOf(a, true, cpu, modeReset && taskReset, KnownTo(v), q, c) == [l];
  }

  lemma CallReadsWell(a: Arch, bt: bool, cpu: nat, modeReset: bool, taskReset: bool, q: Queue, v: View, c: Call)
    requires Agrees(bt, cpu, modeReset, taskReset, q.lastIsKernel, q.lastTask, v) && Sane(a, c)
    ensures ReadsWell(a, bt, cpu, modeReset, taskReset, q, v, c)
  {
    assert v.d.out + [] == v.d.out;
    if c.Stamp? {
      StampReadsWell(a, bt, cpu, modeReset, taskReset, q, v, c);
    } else if Accepted(a, bt, q, c) {
      if bt {
        TracedReadsWell(a, cpu, modeReset, taskReset, q, v, c);
      } else {
        PlainReadsWell(a, cpu, modeReset, taskReset, q, v, c);
      }
    } else if bt && q.Free() >= 4 {
      assert Appended(a, bt, q, c) == [Code(a, CPU_TRACE_BEGIN, 0)];
      ThroughSingle(a, v, Code(a, CPU_TRACE_BEGIN, 0));
    }
  }

  // ---- the hole between head read and reset, exactly ----

  /** Its pc is not null, its mode and its process are noted with the sample or have been told
    * by an entry of the batch before it, and, without tracing, the batch has been opened by
    * a mode note. */
  predicate LearnsAll(bt: bool, k: Known, q: Queue, c: Call)
    requires c.ExtSample?
  {
    && c.pc != 0
    && (k.mode || NotesMode(q, c))
    && (k.task || NotesTask(q, c))
    && (bt || k.begun || NotesMode(q, c))
  }

  /** What of a sample is missing or unknown does not depend on luck: from the records that
    * sync_buffer emits for it, behind whatever it has emitted of the batch, it is decoded
    * whole if and only if the reader `LearnsAll`. */
  lemma DecodedWholeIff(a: Arch, bt: bool, cpu: nat, modeReset: bool, taskReset: bool, q: Queue, v: View, c: Call)
    requires Agrees(bt, cpu, modeReset, taskReset, q.lastIsKernel, q.lastTask, v)
    requires c.ExtSample? && Sane(a, c) && Accepted(a, bt, q, c)
    ensures DecodeAll(v.d, EmitAll(a, v.s, Appended(a, bt, q, c))).out ==
              v.d.out + [Decoded(Some(cpu), Some(c.kernel), Some((c.task.tgid, c.task.pid)), c.pc, c.event,
                                 UpToNull(AcceptedChain(a, bt, q, c)))]
            <==> LearnsAll(bt, KnownTo(v), q, c)
  {
    ThroughIsSyncThenDecode(a, v, Appended(a, bt, q, c));
    CallReadsWell(a, bt, cpu, modeReset, taskReset, q, v, c);
    var l := LogAs(bt, cpu, modeReset && taskReset, KnownTo(v), q, c, AcceptedChain(a, bt, q, c));
    ToldAllOne(l);
    var whole := Decoded(Some(cpu), Some(c.kernel), Some((c.task.tgid, c.task.pid)), c.pc, c.event, UpToNull(l.chain));
    assert v.d.out + Told(l) == v.d.out + [whole] <==> Told(l) == [whole] by {
      assert (v.d.out + Told(l))[|v.d.out|..] == Told(l) && (v.d.out + [whole])[|v.d.out|..] == [whole];
    }
  }

  /** The first entry of a batch is a sample that the producer had no switch to note for:
    * without tracing it is not shown at all; as the head of a trace it is shown with mode
    * and process unknown. */
  lemma BareSample(a: Arch, bt: bool, cpu: nat, q: Queue, c: Call, out: seq<Decoded>)
    requires c.ExtSample? && Sane(a, c) && c.pc != 0 && Accepted(a, bt, q, c) && !NotesMode(q, c) && !NotesTask(q, c)
    ensures DecodeAll(BatchView(cpu, out).d, EmitAll(a, SYNC_INIT, Appended(a, bt, q, c))).out ==
            if bt then out + [Decoded(Some(cpu), None, None, c.pc, c.event, UpToNull(AcceptedChain(a, bt, q, c)))]
            else out
  {
    var v := BatchView(cpu, out);
    ThroughIsSyncThenDecode(a, v, Appended(a, bt, q, c));
    CallReadsWell(a, bt, cpu, false, false, q, v, c);
    ToldAllOne(LogAs(bt, cpu, false, KnownTo(v), q, c, AcceptedChain(a, bt, q, c)));
    assert out + [] == out;
  }

  // ---- what was told before makes no difference ----

  lemma DecodeOneShift(d: Decoder, o: seq<Decoded>, r: Record)
    requires d.trace == InChain ==> d.out != []
    ensures var d' := DecodeOne(d, r);
            && DecodeOne(d.(out := o + d.out), r) == d'.(out := o + d'.out)
            && (d'.trace == InChain ==> d'.out != [])
  {
    var d' := DecodeOne(d, r);
    if r.Sample? && d.trace.InChain? {
      assert (o + d.out)[..|o + d.out| - 1] == o + d.out[..|d.out| - 1];
    }
    assert DecodeOne(d.(out := o + d.out), r).out == o + d'.out;
  }

  lemma {:induction false} ThroughShift(a: Arch, v: View, o: seq<Decoded>, es: seq<OpSample>)
    requires v.d.trace == InChain ==> v.d.out != []
    ensures var v' := Through(a, v, es);
            && Through(a, View(v.s, v.d.(out := o + v.d.out)), es) == View(v'.s, v'.d.(out := o + v'.d.out))
            && (v'.d.trace == InChain ==> v'.d.out != [])
  {
    if es != [] {
      var w := Through(a, v, es[..|es| - 1]);
      ThroughShift(a, v, o, es[..|es| - 1]);
      var rs := EmitOne(a, w.s, es[|es| - 1]);
      if rs != [] {
        DecodeOneShift(w.d, o, rs[0]);
      }
    }
  }

  /** `x` is `y` broken off: a prefix, but for a last chain that may be cut short. */
  predicate BrokenOff(x: seq<Decoded>, y: seq<Decoded>) {
    && |x| <= |y|
    && (forall i :: 0 <= i < |x| - 1 ==> x[i] == y[i])
    && (x != [] ==> x[|x| - 1].chain <= y[|x| - 1].chain
                    && x[|x| - 1] == y[|x| - 1].(chain := x[|x| - 1].chain))
  }

  lemma {:induction false} PrefixIsBrokenOff(d: Decoder, rs: seq<Record>, m: nat)
    requires m <= |rs|
    ensures BrokenOff(DecodeAll(d, rs[..m]).out, DecodeAll(d, rs).out)
  {
    if m == |rs| {
      assert rs[..m] == rs;
    } else {
      var init := rs[..|rs| - 1];
      PrefixIsBrokenOff(d, init, m);
      assert init[..m] == rs[..m];
    }
  }
}
