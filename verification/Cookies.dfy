/** Looking samples up, in the build without RRPROFILE (driver/buffer_sync.c): user samples
  * leave as an offset into a file whose cookie is written only when it changes, and the
  * address space of the running task is held while its samples are looked up. */
module Cookies {
  import opened Wrappers

  const INVALID_COOKIE := 0xffff_ffff_ffff_ffff
  const NO_COOKIE := 0

  type Mm = nat

  /** A ring entry as sync_buffer tells entries apart; `mm` is what get_task_mm finds for
    * its process when the entry is read. */
  datatype Entry =
    | Mode(kernel: bool)
    | TraceBegin
    | Task(pid: nat, tgid: nat, mm: Option<Mm>)
    | Sample(eip: nat, event: nat)

  datatype Record =
    | CpuSwitch(cpu: nat)
    | KernelEnter
    | KernelExit
    | CtxSwitch(pid: nat, app: nat, tgid: nat)
    | CookieSwitch(cookie: nat)
    | Begin
    | SampleEntry(offset: nat, event: nat)

  datatype MmOp = Take(mm: Mm) | Release(mm: Mm)

  datatype Phase = BtIgnore | BufferStart | BtStart | SampleStart

  /** What lookup_dcookie finds at an address, and get_exec_dcookie for an address space. */
  datatype Maps = Maps(at: (Mm, nat) -> (nat, nat), exec: Mm -> nat)

  /** The local variables of sync_buffer, last_cookie, and what has gone out so far. */
  datatype Batch = Batch(phase: Phase, inKernel: bool, mm: Option<Mm>, cookie: nat, lastCookie: nat,
                         out: seq<Record>, ops: seq<MmOp>, lostNoMapping: nat, lostNoMm: nat, btLost: nat)

  function Start(cpu: nat): Batch {
    Batch(BufferStart, true, None, 0, INVALID_COOKIE, [CpuSwitch(cpu)], [], 0, 0, 0)
  }

  function ExecCookie(maps: Maps, mm: Option<Mm>): nat {
    if mm == None then NO_COOKIE else maps.exec(mm.value)
  }

  function ReleaseOps(mm: Option<Mm>): seq<MmOp> { if mm == None then [] else [Release(mm.value)] }
  function TakeOps(mm: Option<Mm>): seq<MmOp> { if mm == None then [] else [Take(mm.value)] }

  /** add_us_sample. */
  function UserSampleAdded(maps: Maps, b: Batch, mm: Mm, eip: nat, event: nat): (Batch, bool) {
    var (cookie, offset) := maps.at(mm, eip);
    if cookie == INVALID_COOKIE then (b.(lostNoMapping := b.lostNoMapping + 1), false)
    else
      var switch := if cookie != b.lastCookie then [CookieSwitch(cookie)] else [];
      (b.(out := b.out + switch + [SampleEntry(offset, event)], lastCookie := cookie), true)
  }

  function SampleAdded(maps: Maps, b: Batch, eip: nat, event: nat): (Batch, bool) {
    if b.inKernel then (b.(out := b.out + [SampleEntry(eip, event)]), true)
    else if b.mm != None then UserSampleAdded(maps, b, b.mm.value, eip, event)
    else (b.(lostNoMm := b.lostNoMm + 1), false)
  }

  function Step(maps: Maps, b: Batch, e: Entry): Batch {
    match e
    case Mode(kernel) =>
      b.(inKernel := kernel, phase := if b.phase == BufferStart then SampleStart else b.phase,
         out := b.out + [if kernel then KernelEnter else KernelExit])
    case TraceBegin => b.(phase := BtStart, out := b.out + [Begin])
    case Task(pid, tgid, mm) =>
      var app := if mm != b.mm then ExecCookie(maps, mm) else b.cookie;
      b.(mm := mm, cookie := app, ops := b.ops + ReleaseOps(b.mm) + TakeOps(mm),
         out := b.out + [CtxSwitch(pid, app, tgid)])
    case Sample(eip, event) =>
      if b.phase == BufferStart || b.phase == BtIgnore then b
      else
        var (b', ok) := SampleAdded(maps, b, eip, event);
        if !ok && b.phase == BtStart then b'.(phase := BtIgnore, btLost := b'.btLost + 1) else b'
  }

  function Steps(maps: Maps, cpu: nat, es: seq<Entry>): Batch {
    if es == [] then Start(cpu) else Step(maps, Steps(maps, cpu, es[..|es| - 1]), es[|es| - 1])
  }

  /** A whole sync: the address space still held is let go. */
  function Sync(maps: Maps, cpu: nat, es: seq<Entry>): Batch {
    var b := Steps(maps, cpu, es);
    b.(ops := b.ops + ReleaseOps(b.mm))
  }

  // ---- what a sample means, and how a reader learns it ----

  datatype Meaning = Kernel(eip: nat) | User(cookie: nat, offset: nat)

  /** What an entry makes of itself: one looked-up sample, if it is emitted. */
  function Meant(maps: Maps, b: Batch, e: Entry): seq<(Meaning, nat)> {
    if !e.Sample? || b.phase == BufferStart || b.phase == BtIgnore then []
    else if b.inKernel then [(Kernel(e.eip), e.event)]
    else if b.mm == None || maps.at(b.mm.value, e.eip).0 == INVALID_COOKIE then []
    else [(User(maps.at(b.mm.value, e.eip).0, maps.at(b.mm.value, e.eip).1), e.event)]
  }

  function Meanings(maps: Maps, cpu: nat, es: seq<Entry>): seq<(Meaning, nat)> {
    if es == [] then []
    else Meanings(maps, cpu, es[..|es| - 1]) + Meant(maps, Steps(maps, cpu, es[..|es| - 1]), es[|es| - 1])
  }

  /** A reader keeps the mode and the cookie it was told last, and forgets both at a CPU
    * switch. */
  datatype Reader = Reader(inKernel: bool, cookie: nat, samples: seq<(Meaning, nat)>)

  function Read(r: Reader, rec: Record): Reader {
    match rec
    case CpuSwitch(_) => r.(inKernel := true, cookie := INVALID_COOKIE)
    case KernelEnter => r.(inKernel := true)
    case KernelExit => r.(inKernel := false)
    case CookieSwitch(cookie) => r.(cookie := cookie)
    case SampleEntry(offset, event) =>
      r.(samples := r.samples + [(if r.inKernel then Kernel(offset) else User(r.cookie, offset), event)])
    case _ => r
  }

  function ReadAll(r: Reader, recs: seq<Record>): Reader {
    if recs == [] then r else Read(ReadAll(r, recs[..|recs| - 1]), recs[|recs| - 1])
  }

  lemma ReadOne(r: Reader, recs: seq<Record>, rec: Record)
    ensures ReadAll(r, recs + [rec]) == Read(ReadAll(r, recs), rec)
  {
    assert (recs + [rec])[..|recs|] == recs;
  }

  lemma UserSampleIsTrue(maps: Maps, b: Batch, mm: Mm, eip: nat, event: nat, r: Reader, told: seq<(Meaning, nat)>)
    requires ReadAll(r, b.out) == Reader(false, b.lastCookie, told)
    ensures var b' := UserSampleAdded(maps, b, mm, eip, event).0;
            var (cookie, offset) := maps.at(mm, eip);
            var meant := if cookie == INVALID_COOKIE then [] else [(User(cookie, offset), event)];
            ReadAll(r, b'.out) == Reader(false, b'.lastCookie, told + meant)
  {
    var (cookie, offset) := maps.at(mm, eip);
    assert told + [] == told && b.out + [] == b.out;
    if cookie != INVALID_COOKIE {
      var switched := if cookie != b.lastCookie then b.out + [CookieSwitch(cookie)] else b.out;
      if cookie != b.lastCookie {
        ReadOne(r, b.out, CookieSwitch(cookie));
      }
      ReadOne(r, switched, SampleEntry(offset, event));
      assert UserSampleAdded(maps, b, mm, eip, event).0.out == switched + [SampleEntry(offset, event)];
    }
  }

  lemma SampleIsTrue(maps: Maps, b: Batch, e: Entry, r: Reader, told: seq<(Meaning, nat)>)
    requires ReadAll(r, b.out) == Reader(b.inKernel, b.lastCookie, told) && e.Sample?
    ensures var b' := Step(maps, b, e);
            ReadAll(r, b'.out) == Reader(b'.inKernel, b'.lastCookie, told + Meant(maps, b, e))
  {
    assert told + [] == told;
    if b.inKernel {
      ReadOne(r, b.out, SampleEntry(e.eip, e.event));
    } else if b.mm != None {
      UserSampleIsTrue(maps, b, b.mm.value, e.eip, e.event, r, told);
    }
  }

  /** The record that an entry other than a sample becomes. */
  function NoteOf(maps: Maps, b: Batch, e: Entry): Record
    requires !e.Sample?
  {
    match e
    case Mode(kernel) => if kernel then KernelEnter else KernelExit
    case TraceBegin => Begin
    case Task(pid, tgid, mm) => CtxSwitch(pid, if mm != b.mm then ExecCookie(maps, mm) else b.cookie, tgid)
  }

  lemma NoteIsTrue(maps: Maps, b: Batch, e: Entry, r: Reader, told: seq<(Meaning, nat)>)
    requires ReadAll(r, b.out) == Reader(b.inKernel, b.lastCookie, told) && !e.Sample?
    ensures var b' := Step(maps, b, e);
            ReadAll(r, b'.out) == Reader(b'.inKernel, b'.lastCookie, told)
  {
    ReadOne(r, b.out, NoteOf(maps, b, e));
    assert Step(maps, b, e).out == b.out + [NoteOf(maps, b, e)];
  }

  lemma StepIsTrue(maps: Maps, b: Batch, e: Entry, r: Reader, told: seq<(Meaning, nat)>)
    requires ReadAll(r, b.out) == Reader(b.inKernel, b.lastCookie, told)
    ensures var b' := Step(maps, b, e);
            ReadAll(r, b'.out) == Reader(b'.inKernel, b'.lastCookie, told + Meant(maps, b, e))
  {
    if e.Sample? {
      SampleIsTrue(maps, b, e, r, told);
    } else {
      NoteIsTrue(maps, b, e, r, told);
      assert told + Meant(maps, b, e) == told;
    }
  }

  /** Wherever the reader came from, after the batch it has read each emitted sample as what
    * it was looked up as. */
  lemma {:induction false} CookiesAreTrue(maps: Maps, cpu: nat, es: seq<Entry>, r: Reader)
    ensures var b := Steps(maps, cpu, es);
            ReadAll(r, b.out) == Reader(b.inKernel, b.lastCookie, r.samples + Meanings(maps, cpu, es))
  {
    if es == [] {
      assert ReadAll(r, []) == r;
      ReadOne(r, [], CpuSwitch(cpu));
      assert [] + [CpuSwitch(cpu)] == [CpuSwitch(cpu)];
      assert r.samples + [] == r.samples;
    } else {
      var init, e := es[..|es| - 1], es[|es| - 1];
      var b, before := Steps(maps, cpu, init), Meanings(maps, cpu, init);
      CookiesAreTrue(maps, cpu, init, r);
      StepIsTrue(maps, b, e, r, r.samples + before);
      assert r.samples + before + Meant(maps, b, e) == r.samples + (before + Meant(maps, b, e));
    }
  }

  // ---- the same, said of positions in the batch ----

  /** The mode before entry `i`: that of the last note, and the kernel's if there is none. */
  predicate KernelBefore(es: seq<Entry>, i: nat)
    requires i <= |es|
  {
    if i == 0 then true else if es[i - 1].Mode? then es[i - 1].kernel else KernelBefore(es, i - 1)
  }

  /** The address space before entry `i`: that of the process switched to last. */
  function MmBefore(es: seq<Entry>, i: nat): Option<Mm>
    requires i <= |es|
  {
    if i == 0 then None else if es[i - 1].Task? then es[i - 1].mm else MmBefore(es, i - 1)
  }

  /** A user sample with no address space. */
  predicate HasNoMm(es: seq<Entry>, i: nat)
    requires i < |es|
  {
    es[i].Sample? && !KernelBefore(es, i) && MmBefore(es, i) == None
  }

  /** A user sample at which nothing is mapped. */
  predicate HasNoMapping(maps: Maps, es: seq<Entry>, i: nat)
    requires i < |es|
  {
    && es[i].Sample? && !KernelBefore(es, i) && MmBefore(es, i).Some?
    && maps.at(MmBefore(es, i).value, es[i].eip).0 == 0xffff_ffff_ffff_ffff
  }

  predicate Fails(maps: Maps, es: seq<Entry>, i: nat)
    requires i < |es|
  {
    HasNoMm(es, i) || HasNoMapping(maps, es, i)
  }

  /** Entry `t` opens the trace that position `i` lies in. */
  predicate OpensTraceOf(es: seq<Entry>, t: nat, i: nat) {
    t < i <= |es| && es[t] == TraceBegin && forall j :: t < j < i ==> es[j] != TraceBegin
  }

  predicate InTrace(es: seq<Entry>, i: nat) {
    exists t :: 0 <= t < i && OpensTraceOf(es, t, i)
  }

  /** A sample of the trace before position `i` could not be looked up. */
  predicate CutBefore(maps: Maps, es: seq<Entry>, i: nat) {
    exists t, j :: 0 <= t < j < i && OpensTraceOf(es, t, i) && Fails(maps, es, j)
  }

  predicate ModeBefore(es: seq<Entry>, i: nat)
    requires i <= |es|
  {
    exists j :: 0 <= j < i && es[j].Mode?
  }

  /** Which samples are looked up at all: those in a trace not cut yet, or else behind the first
    * mode note. */
  predicate Tried(maps: Maps, es: seq<Entry>, i: nat)
    requires i < |es|
  {
    es[i].Sample? && if InTrace(es, i) then !CutBefore(maps, es, i) else ModeBefore(es, i)
  }

  /** The samples that come out, each as what is looked up for it. */
  function LookedUp(maps: Maps, es: seq<Entry>, n: nat): seq<(Meaning, nat)>
    requires n <= |es|
  {
    if n == 0 then []
    else
      var i := n - 1;
      var more :=
        if !Tried(maps, es, i) || Fails(maps, es, i) then []
        else if KernelBefore(es, i) then [(Kernel(es[i].eip), es[i].event)]
        else
          var (cookie, offset) := maps.at(MmBefore(es, i).value, es[i].eip);
          [(User(cookie, offset), es[i].event)];
      LookedUp(maps, es, i) + more
  }

  /** The three losses among the first `n` entries: no address space, no mapping, and traces
    * that either cuts. */
  function Losses(maps: Maps, es: seq<Entry>, n: nat): (nat, nat, nat)
    requires n <= |es|
  {
    if n == 0 then (0, 0, 0)
    else
      var i := n - 1;
      var (noMm, noMapping, cut) := Losses(maps, es, i);
      if !Tried(maps, es, i) then (noMm, noMapping, cut)
      else (noMm + (if HasNoMm(es, i) then 1 else 0), noMapping + (if HasNoMapping(maps, es, i) then 1 else 0),
            cut + (if Fails(maps, es, i) && InTrace(es, i) then 1 else 0))
  }

  function PhaseAt(maps: Maps, es: seq<Entry>, n: nat): Phase
    requires n <= |es|
  {
    if InTrace(es, n) then if CutBefore(maps, es, n) then BtIgnore else BtStart
    else if ModeBefore(es, n) then SampleStart else BufferStart
  }

  lemma PositionsStep(maps: Maps, es: seq<Entry>, n: nat)
    requires n < |es|
    ensures InTrace(es, n + 1) <==> es[n] == TraceBegin || InTrace(es, n)
    ensures CutBefore(maps, es, n + 1) <==>
            es[n] != TraceBegin && (CutBefore(maps, es, n) || (InTrace(es, n) && Fails(maps, es, n)))
    ensures ModeBefore(es, n + 1) <==> ModeBefore(es, n) || es[n].Mode?
  {
    if es[n] == TraceBegin {
      assert OpensTraceOf(es, n, n + 1);
    }
    if InTrace(es, n) && es[n] != TraceBegin {
      var t :| 0 <= t < n && OpensTraceOf(es, t, n);
      assert OpensTraceOf(es, t, n + 1);
    }
    if CutBefore(maps, es, n) && es[n] != TraceBegin {
      var t, j :| 0 <= t < j < n && OpensTraceOf(es, t, n) && Fails(maps, es, j);
      assert OpensTraceOf(es, t, n + 1);
    }
    if CutBefore(maps, es, n + 1) {
      var t, j :| 0 <= t < j < n + 1 && OpensTraceOf(es, t, n + 1) && Fails(maps, es, j);
      assert OpensTraceOf(es, t, n);
    }
    if InTrace(es, n + 1) && es[n] != TraceBegin {
      var t :| 0 <= t < n + 1 && OpensTraceOf(es, t, n + 1);
      assert OpensTraceOf(es, t, n);
    }
    if ModeBefore(es, n) {
      var j :| 0 <= j < n && es[j].Mode?;
      assert es[j].Mode?;
    }
  }

  /** The local variables of sync_buffer and its counters, by positions. */
  predicate StandsAt(maps: Maps, es: seq<Entry>, n: nat, b: Batch)
    requires n <= |es|
  {
    && b.phase == PhaseAt(maps, es, n) && b.inKernel == KernelBefore(es, n) && b.mm == MmBefore(es, n)
    && (b.lostNoMm, b.lostNoMapping, b.btLost) == Losses(maps, es, n)
  }

  lemma StandsStep(maps: Maps, es: seq<Entry>, n: nat, b: Batch)
    requires n < |es| && StandsAt(maps, es, n, b)
    ensures StandsAt(maps, es, n + 1, Step(maps, b, es[n]))
  {
    PositionsStep(maps, es, n);
  }

  lemma MeantAt(maps: Maps, es: seq<Entry>, n: nat, b: Batch)
    requires n < |es| && StandsAt(maps, es, n, b)
    ensures LookedUp(maps, es, n + 1) == LookedUp(maps, es, n) + Meant(maps, b, es[n])
  {
    PositionsStep(maps, es, n);
  }

  /** Which samples leave, as what, and what is counted as lost. */
  lemma {:induction false} SamplesByPosition(maps: Maps, cpu: nat, es: seq<Entry>, n: nat)
    requires n <= |es|
    ensures StandsAt(maps, es, n, Steps(maps, cpu, es[..n]))
    ensures Meanings(maps, cpu, es[..n]) == LookedUp(maps, es, n)
  {
    if n > 0 {
      SamplesByPosition(maps, cpu, es, n - 1);
      assert es[..n][..n - 1] == es[..n - 1];
      StandsStep(maps, es, n - 1, Steps(maps, cpu, es[..n - 1]));
      MeantAt(maps, es, n - 1, Steps(maps, cpu, es[..n - 1]));
    }
  }

  /** The records that are neither samples nor cookies. */
  function Notes(recs: seq<Record>): seq<Record> {
    if recs == [] then []
    else
      var last := recs[|recs| - 1];
      Notes(recs[..|recs| - 1]) + if last.SampleEntry? || last.CookieSwitch? then [] else [last]
  }

  lemma {:induction false} NotesConcat(xs: seq<Record>, ys: seq<Record>)
    ensures Notes(xs + ys) == Notes(xs) + Notes(ys)
  {
    if ys == [] {
      assert xs + ys == xs;
    } else {
      NotesConcat(xs, ys[..|ys| - 1]);
      assert (xs + ys)[..|xs + ys| - 1] == xs + ys[..|ys| - 1];
    }
  }

  /** Mode and trace notes, and for each context switch the process with the cookie of its
    * executable, zero if it has none. */
  function TrueNotes(maps: Maps, es: seq<Entry>): seq<Record> {
    if es == [] then [] else TrueNotes(maps, es[..|es| - 1]) + TrueNote(maps, es[|es| - 1])
  }

  function TrueNote(maps: Maps, e: Entry): seq<Record> {
    match e
    case Mode(kernel) => [if kernel then KernelEnter else KernelExit]
    case TraceBegin => [Begin]
    case Task(pid, tgid, mm) => [CtxSwitch(pid, if mm == None then 0 else maps.exec(mm.value), tgid)]
    case Sample(_, _) => []
  }

  lemma NotesOfOne(r: Record)
    ensures Notes([r]) == if r.SampleEntry? || r.CookieSwitch? then [] else [r]
  {
    assert [r][..0] == [];
  }

  predicate IsNote(r: Record) { !r.SampleEntry? && !r.CookieSwitch? }

  lemma {:induction false} SilentRecords(recs: seq<Record>)
    requires forall i :: 0 <= i < |recs| ==> !IsNote(recs[i])
    ensures Notes(recs) == []
  {
    if recs != [] {
      SilentRecords(recs[..|recs| - 1]);
      assert !IsNote(recs[|recs| - 1]);
    }
  }

  /** The records that a sample adds. */
  lemma SampleAdds(maps: Maps, b: Batch, e: Entry) returns (more: seq<Record>)
    requires e.Sample?
    ensures Step(maps, b, e).out == b.out + more && forall i :: 0 <= i < |more| ==> !IsNote(more[i])
  {
    more := Step(maps, b, e).out[|b.out|..];
  }

  lemma NotesOfSample(maps: Maps, b: Batch, e: Entry)
    requires e.Sample?
    ensures Notes(Step(maps, b, e).out) == Notes(b.out)
  {
    var more := SampleAdds(maps, b, e);
    SilentRecords(more);
    NotesConcat(b.out, more);
    assert Notes(b.out) + [] == Notes(b.out);
  }

  lemma NotesOfStep(maps: Maps, b: Batch, e: Entry)
    requires b.cookie == ExecCookie(maps, b.mm)
    ensures Notes(Step(maps, b, e).out) == Notes(b.out) + TrueNote(maps, e)
  {
    if e.Sample? {
      NotesOfSample(maps, b, e);
      assert Notes(b.out) + [] == Notes(b.out);
    } else {
      assert TrueNote(maps, e) == [NoteOf(maps, b, e)];
      assert Step(maps, b, e).out == b.out + [NoteOf(maps, b, e)];
      NotesConcat(b.out, [NoteOf(maps, b, e)]);
      NotesOfOne(NoteOf(maps, b, e));
    }
  }

  lemma MoreNotes(first: Record, xs: seq<Record>, ys: seq<Record>)
    ensures [first] + xs + ys == [first] + (xs + ys)
  {
  }

  /** The records in between say which process and mode the samples belong to. */
  lemma {:induction false} NotesAreTrue(maps: Maps, cpu: nat, es: seq<Entry>)
    ensures Notes(Steps(maps, cpu, es).out) == [CpuSwitch(cpu)] + TrueNotes(maps, es)
  {
    if es == [] {
      NotesOfOne(CpuSwitch(cpu));
    } else {
      var init, e := es[..|es| - 1], es[|es| - 1];
      NotesAreTrue(maps, cpu, init);
      HoldsOne(maps, cpu, init);
      NotesOfStep(maps, Steps(maps, cpu, init), e);
      MoreNotes(CpuSwitch(cpu), TrueNotes(maps, init), TrueNote(maps, e));
    }
  }

  // ---- address spaces held ----

  /** After these operations `held` is held: at no point more than one, none is released that
    * is not held. */
  predicate Balanced(ops: seq<MmOp>, held: Option<Mm>) {
    if ops == [] then held == None
    else
      match ops[|ops| - 1]
      case Take(mm) => held == Some(mm) && Balanced(ops[..|ops| - 1], None)
      case Release(mm) => held == None && Balanced(ops[..|ops| - 1], Some(mm))
  }

  lemma BalancedStep(ops: seq<MmOp>, held: Option<Mm>, next: Option<Mm>)
    requires Balanced(ops, held)
    ensures Balanced(ops + ReleaseOps(held), None)
    ensures Balanced(ops + ReleaseOps(held) + TakeOps(next), next)
  {
    var released := ops + ReleaseOps(held);
    if held == None {
      assert released == ops;
    } else {
      assert released[..|released| - 1] == ops;
    }
    var taken := released + TakeOps(next);
    if next == None {
      assert taken == released;
    } else {
      assert taken[..|taken| - 1] == released;
    }
  }

  /** During a sync at most one address space is held, that of the process last switched to,
    * and the context switch records carry the cookie of its executable. */
  lemma {:induction false} HoldsOne(maps: Maps, cpu: nat, es: seq<Entry>)
    ensures var b := Steps(maps, cpu, es); Balanced(b.ops, b.mm) && b.cookie == ExecCookie(maps, b.mm)
  {
    if es != [] {
      var init, e := es[..|es| - 1], es[|es| - 1];
      HoldsOne(maps, cpu, init);
      if e.Task? {
        BalancedStep(Steps(maps, cpu, init).ops, Steps(maps, cpu, init).mm, e.mm);
      }
    }
  }

  lemma {:induction false} BalancedCounts(ops: seq<MmOp>, held: Option<Mm>, mm: Mm)
    requires Balanced(ops, held)
    ensures multiset(ops)[Take(mm)] == multiset(ops)[Release(mm)] + (if held == Some(mm) then 1 else 0)
  {
    if ops != [] {
      var init, last := ops[..|ops| - 1], ops[|ops| - 1];
      assert ops == init + [last];
      BalancedCounts(init, if last.Take? then None else Some(last.mm), mm);
    }
  }

  /** Every address space that a sync takes it releases exactly as often. */
  lemma TakenIsReleased(maps: Maps, cpu: nat, es: seq<Entry>, mm: Mm)
    ensures Balanced(Sync(maps, cpu, es).ops, None)
    ensures multiset(Sync(maps, cpu, es).ops)[Take(mm)] == multiset(Sync(maps, cpu, es).ops)[Release(mm)]
  {
    var b := Steps(maps, cpu, es);
    HoldsOne(maps, cpu, es);
    BalancedStep(b.ops, b.mm, None);
    BalancedCounts(Sync(maps, cpu, es).ops, None, mm);
  }

  // ---- sync_buffer in the driver's form ----

  class Syncer {
    var lastCookie: nat
    var out: seq<Record>
    var ops: seq<MmOp>
    var lostNoMapping: nat
    var lostNoMm: nat
    var btLost: nat

    ghost predicate At(b: Batch, before: Batch)
      reads this
    {
      && lastCookie == b.lastCookie
      && out == before.out + b.out && ops == before.ops + b.ops
      && lostNoMapping == before.lostNoMapping + b.lostNoMapping
      && lostNoMm == before.lostNoMm + b.lostNoMm && btLost == before.btLost + b.btLost
    }

    ghost function Abs(): Batch
      reads this
    {
      Batch(BufferStart, true, None, 0, lastCookie, out, ops, lostNoMapping, lostNoMm, btLost)
    }

    method AddUserSample(maps: Maps, mm: Mm, eip: nat, event: nat, ghost b: Batch, ghost before: Batch)
      returns (ok: bool)
      requires At(b, before)
      modifies this
      ensures ok == UserSampleAdded(maps, b, mm, eip, event).1
      ensures At(UserSampleAdded(maps, b, mm, eip, event).0, before)
    {
      var (cookie, offset) := maps.at(mm, eip);
      if cookie == INVALID_COOKIE {
        lostNoMapping := lostNoMapping + 1;
        return false;
      }
      if cookie != lastCookie {
        out := out + [CookieSwitch(cookie)];
        lastCookie := cookie;
      }
      out := out + [SampleEntry(offset, event)];
      return true;
    }

    method AddSample(maps: Maps, mm: Option<Mm>, inKernel: bool, eip: nat, event: nat,
                     ghost b: Batch, ghost before: Batch)
      returns (ok: bool)
      requires At(b, before) && b.mm == mm && b.inKernel == inKernel
      modifies this
      ensures ok == SampleAdded(maps, b, eip, event).1 && At(SampleAdded(maps, b, eip, event).0, before)
    {
      if inKernel {
        out := out + [SampleEntry(eip, event)];
        return true;
      } else if mm != None {
        ok := AddUserSample(maps, mm.value, eip, event, b, before);
        return;
      }
      lostNoMm := lostNoMm + 1;
      return false;
    }

    /** A context switch: the old address space goes before the new one is taken. */
    method SwitchTask(maps: Maps, pid: nat, tgid: nat, mm: Option<Mm>, found: Option<Mm>, cookie: nat,
                      ghost b: Batch, ghost before: Batch) returns (app: nat)
      requires At(b, before) && b.mm == mm && b.cookie == cookie
      modifies this
      ensures At(Step(maps, b, Task(pid, tgid, found)), before) && app == Step(maps, b, Task(pid, tgid, found)).cookie
    {
      app := cookie;
      if mm != None {
        ops := ops + [Release(mm.value)];
      }
      if found != None {
        ops := ops + [Take(found.value)];
      }
      if found != mm {
        app := ExecCookie(maps, found);
      }
      out := out + [CtxSwitch(pid, app, tgid)];
    }

    /** A mode note opens a batch that nothing else has opened. */
    method NoteMode(maps: Maps, kernel: bool, phase: Phase, ghost b: Batch, ghost before: Batch) returns (p: Phase)
      requires At(b, before) && b.phase == phase
      modifies this
      ensures At(Step(maps, b, Mode(kernel)), before) && p == Step(maps, b, Mode(kernel)).phase
    {
      p := if phase == BufferStart then SampleStart else phase;
      out := out + [if kernel then KernelEnter else KernelExit];
    }

    method NoteTrace(maps: Maps, ghost b: Batch, ghost before: Batch)
      requires At(b, before)
      modifies this
      ensures At(Step(maps, b, TraceBegin), before)
    {
      out := out + [Begin];
    }

    /** A sample that a trace cannot show ends the trace. */
    method TakeSample(maps: Maps, mm: Option<Mm>, inKernel: bool, phase: Phase, eip: nat, event: nat,
                      ghost b: Batch, ghost before: Batch) returns (p: Phase)
      requires At(b, before) && b.mm == mm && b.inKernel == inKernel && b.phase == phase
      modifies this
      ensures At(Step(maps, b, Sample(eip, event)), before) && p == Step(maps, b, Sample(eip, event)).phase
    {
      p := phase;
      if phase == BtStart || phase == SampleStart {
        var ok := AddSample(maps, mm, inKernel, eip, event, b, before);
        if !ok && phase == BtStart {
          p := BtIgnore;
          btLost := btLost + 1;
        }
      }
    }

    method SyncBuffer(maps: Maps, cpu: nat, es: seq<Entry>)
      modifies this
      ensures At(Sync(maps, cpu, es), old(Abs()))
    {
      ghost var before := Abs();
      var mm: Option<Mm>, cookie, inKernel, phase := None, 0, true, BufferStart;
      out := out + [CpuSwitch(cpu)];
      lastCookie := INVALID_COOKIE;
      ghost var b := Steps(maps, cpu, []);
      assert es[..0] == [];
      for i := 0 to |es|
        invariant b == Steps(maps, cpu, es[..i]) && At(b, before)
        invariant b.mm == mm && b.cookie == cookie && b.inKernel == inKernel && b.phase == phase
      {
        StepsOne(maps, cpu, es, i);
        match es[i] {
          case Mode(kernel) =>
            inKernel := kernel;
            phase := NoteMode(maps, kernel, phase, b, before);
          case TraceBegin =>
            phase := BtStart;
            NoteTrace(maps, b, before);
          case Task(pid, tgid, found) =>
            cookie := SwitchTask(maps, pid, tgid, mm, found, cookie, b, before);
            mm := found;
          case Sample(eip, event) =>
            phase := TakeSample(maps, mm, inKernel, phase, eip, event, b, before);
        }
        b := Step(maps, b, es[i]);
      }
      assert es[..|es|] == es;
      if mm != None {
        ops := ops + [Release(mm.value)];
      }
    }
  }

  lemma StepsOne(maps: Maps, cpu: nat, es: seq<Entry>, i: nat)
    requires i < |es|
    ensures Steps(maps, cpu, es[..i + 1]) == Step(maps, Steps(maps, cpu, es[..i]), es[i])
  {
    assert es[..i + 1][..i] == es[..i];
  }
}
