/** The word stream handed to the profiling daemon: an untyped array of machine words in
  * which everything but a plain sample is announced by ESCAPE_CODE and an identifying
  * code (oprofile.h, driver/buffer_sync.c). */
module EventStream {
  import opened Sequences
  import opened Wrappers

  /** sizeof(unsigned long) decides how a 64-bit timestamp is cut into words. */
  datatype Arch = Ilp32 | Lp64 {
    function WordLimit(): nat { if Ilp32? then 0x1_0000_0000 else 0x1_0000_0000_0000_0000 }
    function Escape(): nat { WordLimit() - 1 }
    /** The conversion of a 64-bit value to unsigned long. */
    function ToWord(x: nat): nat { x % WordLimit() }
  }

  const HALF := 0x1_0000_0000
  const STAMP_LIMIT := 0x1_0000_0000_0000_0000

  datatype StampKind = SamplingBegin | SamplingEnd | SampleBegin | SampleEnd

  datatype Record =
    | CpuSwitch(cpu: nat)
    | KernelEnter
    | KernelExit
    | CtxSwitch(tid: nat, tgid: nat)
    | TraceBegin
    | Timestamp(kind: StampKind, time: nat)
    | Adapt(interval: nat)
    | Sample(pc: nat, event: nat)

  const CTX_SWITCH_CODE := 1
  const CPU_SWITCH_CODE := 2
  const KERNEL_ENTER_SWITCH_CODE := 4
  const KERNEL_EXIT_SWITCH_CODE := 5
  const TRACE_BEGIN_CODE := 8
  const RR_ADAPT_SAMPLING_INTERVAL_CODE := 104

  function StampCode(k: StampKind): nat {
    match k
    case SamplingBegin => 100
    case SamplingEnd => 101
    case SampleBegin => 102
    case SampleEnd => 103
  }

  /** What every emitted record satisfies: its fields are machine words, and a sample's pc
    * is not the escape value (operands and event numbers may be). */
  predicate Encodable(a: Arch, r: Record) {
    match r
    case CpuSwitch(cpu) => cpu < a.WordLimit()
    case CtxSwitch(tid, tgid) => tid < a.WordLimit() && tgid < a.WordLimit()
    case Timestamp(_, time) => time < STAMP_LIMIT
    case Adapt(v) => v < a.WordLimit()
    case Sample(pc, event) => pc < a.Escape() && event < a.WordLimit()
    case _ => true
  }

  predicate AllEncodable(a: Arch, rs: seq<Record>) {
    forall i :: 0 <= i < |rs| ==> Encodable(a, rs[i])
  }

  function StampWords(a: Arch, t: nat): seq<nat> {
    if a.Lp64? then [t] else [a.ToWord(t / HALF), a.ToWord(t)]
  }

  function Print(a: Arch, r: Record): (ws: seq<nat>) {
    match r
    case CpuSwitch(cpu) => [a.Escape(), CPU_SWITCH_CODE, cpu]
    case KernelEnter => [a.Escape(), KERNEL_ENTER_SWITCH_CODE]
    case KernelExit => [a.Escape(), KERNEL_EXIT_SWITCH_CODE]
    case CtxSwitch(tid, tgid) => [a.Escape(), CTX_SWITCH_CODE, tid, tgid]
    case TraceBegin => [a.Escape(), TRACE_BEGIN_CODE]
    case Timestamp(k, t) => [a.Escape(), StampCode(k)] + StampWords(a, t)
    case Adapt(v) => [a.Escape(), RR_ADAPT_SAMPLING_INTERVAL_CODE, v]
    case Sample(pc, event) => [pc, event]
  }

  function PrintAll(a: Arch, rs: seq<Record>): (ws: seq<nat>) {
    if rs == [] then [] else Print(a, rs[0]) + PrintAll(a, rs[1..])
  }

  /** The daemon's side: take one complete record off the front, if there is one. */
  function Next(a: Arch, ws: seq<nat>): (r: Option<(Record, nat)>)
    ensures r.Some? ==> 2 <= r.value.1 <= |ws|
  {
    if |ws| < 2 then None
    else if ws[0] != a.Escape() then Some((Sample(ws[0], ws[1]), 2))
    else if ws[1] == KERNEL_ENTER_SWITCH_CODE then Some((KernelEnter, 2))
    else if ws[1] == KERNEL_EXIT_SWITCH_CODE then Some((KernelExit, 2))
    else if ws[1] == TRACE_BEGIN_CODE then Some((TraceBegin, 2))
    else if |ws| < 3 then None
    else if ws[1] == CPU_SWITCH_CODE then Some((CpuSwitch(ws[2]), 3))
    else if ws[1] == RR_ADAPT_SAMPLING_INTERVAL_CODE then Some((Adapt(ws[2]), 3))
    else if 100 <= ws[1] <= 103 then
      var k := if ws[1] == 100 then SamplingBegin else if ws[1] == 101 then SamplingEnd
               else if ws[1] == 102 then SampleBegin else SampleEnd;
      if a.Lp64? then Some((Timestamp(k, ws[2]), 3))
      else if |ws| < 4 then None
      else Some((Timestamp(k, ws[2] * HALF + ws[3]), 4))
    else if |ws| < 4 then None
    else if ws[1] == CTX_SWITCH_CODE then Some((CtxSwitch(ws[2], ws[3]), 4))
    else None
  }

  datatype Parsed = Parsed(records: seq<Record>, rest: seq<nat>)

  /** Read complete records until the words run out (or make no sense). */
  function Parse(a: Arch, ws: seq<nat>): (p: Parsed)
    decreases |ws|
  {
    match Next(a, ws)
    case None => Parsed([], ws)
    case Some((r, n)) =>
      var p := Parse(a, ws[n..]);
      Parsed([r] + p.records, p.rest)
  }

  /** The words of every record, by number. */
  lemma WordsByNumber(a: Arch, n: nat, m: nat)
    ensures var escape := if a.Ilp32? then 0xffff_ffff else 0xffff_ffff_ffff_ffff;
            && Print(a, CpuSwitch(n)) == [escape, 2, n]
            && Print(a, KernelEnter) == [escape, 4] && Print(a, KernelExit) == [escape, 5]
            && Print(a, CtxSwitch(n, m)) == [escape, 1, n, m]
            && Print(a, TraceBegin) == [escape, 8]
            && Print(a, Adapt(n)) == [escape, 104, n]
            && Print(a, Sample(n, m)) == [n, m]
    ensures var escape := if a.Ilp32? then 0xffff_ffff else 0xffff_ffff_ffff_ffff;
            var time := if a.Lp64? then [n] else [n / 0x1_0000_0000 % 0x1_0000_0000, n % 0x1_0000_0000];
            && Print(a, Timestamp(SamplingBegin, n)) == [escape, 100] + time
            && Print(a, Timestamp(SamplingEnd, n)) == [escape, 101] + time
            && Print(a, Timestamp(SampleBegin, n)) == [escape, 102] + time
            && Print(a, Timestamp(SampleEnd, n)) == [escape, 103] + time
  {
  }

  lemma NextPrint(a: Arch, r: Record, rest: seq<nat>)
    requires Encodable(a, r)
    ensures Next(a, Print(a, r) + rest) == Some((r, |Print(a, r)|))
  {
    if r.Timestamp? && a.Ilp32? {
      assert r.time / HALF < HALF;
      assert r.time == r.time / HALF * HALF + r.time % HALF;
    }
  }

  lemma NextCut(a: Arch, r: Record, k: nat)
    requires Encodable(a, r) && k < |Print(a, r)|
    ensures Next(a, Print(a, r)[..k]) == None
  {
  }

  lemma {:induction false} PrintAllConcat(a: Arch, xs: seq<Record>, ys: seq<Record>)
    ensures PrintAll(a, xs + ys) == PrintAll(a, xs) + PrintAll(a, ys)
  {
    if xs == [] {
      assert xs + ys == ys;
    } else {
      PrintAllConcat(a, xs[1..], ys);
      assert (xs + ys)[0] == xs[0] && (xs + ys)[1..] == xs[1..] + ys;
      Assoc(Print(a, xs[0]), PrintAll(a, xs[1..]), PrintAll(a, ys));
    }
  }

  /** A cut `k` words into `first + tail`, at or past the end of `first`. */
  lemma CutPast(first: seq<nat>, tail: seq<nat>, k: nat)
    requires |first| <= k <= |first + tail|
    ensures (first + tail)[..k] == first + tail[..k - |first|]
    ensures (first + tail)[..k][|first|..] == tail[..k - |first|]
  {
  }

  /** `ws` parses as the first `m` records of `rs`, and what is left over is a proper prefix
    * of the words of record `m` (nothing, if there is no such record). */
  ghost predicate ParsesUpTo(a: Arch, rs: seq<Record>, ws: seq<nat>, m: nat) {
    && m <= |rs|
    && var p := Parse(a, ws);
      && p.records == rs[..m]
      && ws == PrintAll(a, rs[..m]) + p.rest
      && if m == |rs| then p.rest == [] else p.rest < Print(a, rs[m])
  }

  lemma ParsesUpToCons(a: Arch, rs: seq<Record>, rest: seq<nat>, n: nat)
    requires rs != [] && Encodable(a, rs[0]) && ParsesUpTo(a, rs[1..], rest, n)
    ensures ParsesUpTo(a, rs, Print(a, rs[0]) + rest, n + 1)
  {
    var first := Print(a, rs[0]);
    NextPrint(a, rs[0], rest);
    assert (first + rest)[|first|..] == rest;
    assert rs[..n + 1][0] == rs[0] && rs[..n + 1][1..] == rs[1..][..n];
    Assoc(first, PrintAll(a, rs[1..][..n]), Parse(a, rest).rest);
  }

  /** Any prefix of a printed stream parses to a prefix of the records and at most one cut
    * record. */
  lemma {:induction false} PrefixParses(a: Arch, rs: seq<Record>, k: nat) returns (m: nat)
    requires AllEncodable(a, rs) && k <= |PrintAll(a, rs)|
    ensures ParsesUpTo(a, rs, PrintAll(a, rs)[..k], m)
  {
    if rs == [] {
      m := 0;
    } else if k < |Print(a, rs[0])| {
      m := 0;
      NextCut(a, rs[0], k);
      assert PrintAll(a, rs)[..k] == Print(a, rs[0])[..k];
    } else {
      var first, tail := Print(a, rs[0]), PrintAll(a, rs[1..]);
      var n := PrefixParses(a, rs[1..], k - |first|);
      CutPast(first, tail, k);
      ParsesUpToCons(a, rs, tail[..k - |first|], n);
      m := n + 1;
    }
  }

  /** Parsing inverts printing, whatever the operands are. */
  lemma {:induction false} RoundTrip(a: Arch, rs: seq<Record>)
    requires AllEncodable(a, rs)
    ensures Parse(a, PrintAll(a, rs)) == Parsed(rs, [])
  {
    if rs != [] {
      RoundTrip(a, rs[1..]);
      assert rs[1..][..|rs| - 1] == rs[1..];
      ParsesUpToCons(a, rs, PrintAll(a, rs[1..]), |rs| - 1);
      assert rs[..|rs|] == rs;
    }
  }

  /** The code is uniquely decodable, and prefix-free above the record level: a stream that
    * begins with the words of `xs` begins with the records `xs`. */
  lemma UniquelyDecodable(a: Arch, xs: seq<Record>, ys: seq<Record>)
    requires AllEncodable(a, xs) && AllEncodable(a, ys)
    requires PrintAll(a, xs) <= PrintAll(a, ys)
    ensures xs <= ys
    ensures PrintAll(a, xs) == PrintAll(a, ys) ==> xs == ys
  {
    var k := |PrintAll(a, xs)|;
    var m := PrefixParses(a, ys, k);
    assert PrintAll(a, ys)[..k] == PrintAll(a, xs);
    RoundTrip(a, xs);
    if k == |PrintAll(a, ys)| {
      RoundTrip(a, ys);
    }
  }
}
