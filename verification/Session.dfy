/** Adapting the sampling period, and what the adaptation records in the stream promise about
  * the samples between them (driver/oprof.c, x86/nmi_int.c, driver/timer_int_2.6.35.c). */
module Session {
  import opened EventStream
  import opened CpuBuffer
  import opened BufferSync
  import opened Numbers

  const ADAPT_DECAY_FACTOR := 10
  const MAX_COUNTER_VALUE := INT_MAX / ADAPT_DECAY_FACTOR

  datatype Counter = Counter(enabled: bool, count: nat)

  // ---- scaling the configuration ----

  predicate CanScale(cs: seq<Counter>) {
    forall i :: 0 <= i < |cs| && cs[i].enabled ==> cs[i].count < MAX_COUNTER_VALUE
  }

  function ScaleOne(c: Counter): Counter {
    if c.enabled then c.(count := c.count * ADAPT_DECAY_FACTOR) else c
  }

  function Scale(cs: seq<Counter>): (r: seq<Counter>)
    ensures |r| == |cs| && forall i :: 0 <= i < |cs| ==> r[i] == ScaleOne(cs[i])
  {
    seq(|cs|, i requires 0 <= i < |cs| => ScaleOne(cs[i]))
  }

  /** Every enabled count is below a limit. */
  predicate CountsBelow(cs: seq<Counter>, limit: nat) {
    forall i :: 0 <= i < |cs| && cs[i].enabled ==> cs[i].count < limit
  }

  /** `scaled` has ten times the enabled counts of `cs`, and its disabled ones. */
  predicate TenTimes(cs: seq<Counter>, scaled: seq<Counter>) {
    && |scaled| == |cs|
    && forall i :: 0 <= i < |cs| ==>
         scaled[i] == if cs[i].enabled then Counter(true, 10 * cs[i].count) else cs[i]
  }

  /** Scaling is by ten, and refused from 214748364 on, so that an int can hold the result. */
  lemma ScalesByTen(cs: seq<Counter>)
    ensures CanScale(cs) <==> CountsBelow(cs, 214748364)
    ensures TenTimes(cs, Scale(cs))
  {
  }

  /** nmi_adapt: all enabled counters are scaled and every CPU is programmed anew, or
    * nothing changes. `programmed` has the reset values of each CPU. */
  method NmiAdapt(counters: array<Counter>, programmed: array<seq<nat>>) returns (scaled: bool)
    modifies counters, programmed
    ensures scaled <==> CanScale(old(counters[..]))
    ensures counters[..] == if scaled then Scale(old(counters[..])) else old(counters[..])
    ensures forall cpu :: 0 <= cpu < programmed.Length ==>
      programmed[cpu] == if scaled then ResetValues(counters[..]) else old(programmed[cpu])
  {
    for i := 0 to counters.Length
      invariant CanScale(counters[..i]) && counters[..] == old(counters[..])
    {
      if counters[i].enabled && counters[i].count >= MAX_COUNTER_VALUE {
        assert !CanScale(counters[..]) by {
          assert counters[..][i] == counters[i];
        }
        return false;
      }
    }
    assert counters[..counters.Length] == counters[..];
    for i := 0 to counters.Length
      invariant forall j :: 0 <= j < i ==> counters[j] == ScaleOne(old(counters[j]))
      invariant forall j :: i <= j < counters.Length ==> counters[j] == old(counters[j])
    {
      if counters[i].enabled {
        counters[i] := counters[i].(count := counters[i].count * ADAPT_DECAY_FACTOR);
      }
    }
    for cpu := 0 to programmed.Length
      modifies programmed
      invariant forall c :: 0 <= c < cpu ==> programmed[c] == ResetValues(counters[..])
    {
      programmed[cpu] := ResetValues(counters[..]);
    }
    return true;
  }

  function Pow10(k: nat): (p: nat)
    ensures p >= 1
  {
    if k == 0 then 1 else 10 * Pow10(k - 1)
  }

  lemma {:induction false} Pow10Grows(j: nat, k: nat)
    requires j <= k
    ensures Pow10(j) <= Pow10(k)
  {
    if j < k {
      Pow10Grows(j, k - 1);
    }
  }

  lemma Pow10OfTen()
    ensures Pow10(10) == 10000000000
  {
    assert Pow10(2) == 100 && Pow10(4) == 10000 && Pow10(6) == 1000000 && Pow10(8) == 100000000;
  }

  /** Scaled `k` times over, if that is allowed each time. */
  predicate Scalable(cs: seq<Counter>, k: nat) {
    k == 0 || (Scalable(cs, k - 1) && CanScale(ScaleTimes(cs, k - 1)))
  }

  function ScaleTimes(cs: seq<Counter>, k: nat): seq<Counter> {
    if k == 0 then cs else Scale(ScaleTimes(cs, k - 1))
  }

  function TimesPow10(c: Counter, k: nat): Counter {
    if c.enabled then c.(count := c.count * Pow10(k)) else c
  }

  /** After `k` scalings that were allowed, every enabled count is its first value times ten
    * to the `k`, and below 2^31; the disabled ones are what they were. */
  lemma {:induction false} ScaledCounts(cs: seq<Counter>, k: nat)
    requires Scalable(cs, k)
    ensures |ScaleTimes(cs, k)| == |cs|
    ensures forall i :: 0 <= i < |cs| ==> ScaleTimes(cs, k)[i] == TimesPow10(cs[i], k)
    ensures k > 0 ==> forall i :: 0 <= i < |cs| && cs[i].enabled ==> ScaleTimes(cs, k)[i].count < 0x8000_0000
  {
    if k > 0 {
      ScaledCounts(cs, k - 1);
      forall i | 0 <= i < |cs| && cs[i].enabled
        ensures ScaleTimes(cs, k)[i].count == cs[i].count * Pow10(k)
      {
        assert ScaleTimes(cs, k)[i] == ScaleOne(ScaleTimes(cs, k - 1)[i]);
        assert cs[i].count * Pow10(k - 1) * 10 == cs[i].count * Pow10(k);
      }
    }
  }

  /** At most nine adaptations succeed if some enabled count is at least one; nine do if it
    * is one. */
  lemma AtMostNine(cs: seq<Counter>, k: nat, i: nat)
    requires i < |cs| && cs[i].enabled && cs[i].count >= 1 && Scalable(cs, k)
    ensures k <= 9
  {
    if k >= 10 {
      AtLeast(cs[i].count, Pow10(k));
      Pow10Grows(10, k);
      Pow10OfTen();
      ScaledCounts(cs, k);
    }
  }

  lemma AtLeast(n: nat, p: nat)
    requires n >= 1
    ensures n * p >= p
  {
    assert n * p == (n - 1) * p + p;
  }

  lemma NineFromOne()
    ensures Scalable([Counter(true, 1)], 9) && !Scalable([Counter(true, 1)], 10)
  {
    ScalableOne(9);
    if Scalable([Counter(true, 1)], 10) {
      AtMostNine([Counter(true, 1)], 10, 0);
    }
  }

  lemma {:induction false} ScalableOne(k: nat)
    requires k <= 9
    ensures Scalable([Counter(true, 1)], k)
  {
    if k > 0 {
      ScalableOne(k - 1);
      ScaledCounts([Counter(true, 1)], k - 1);
      Pow10Grows(k - 1, 8);
      assert Pow10(2) == 100 && Pow10(4) == 10000 && Pow10(6) == 1000000 && Pow10(8) == 100000000;
    }
  }

  // ---- the timer: one counter, the tick divider ----

  class Timer {
    var timerCount: nat

    method Adapt() returns (scaled: bool)
      modifies this
      ensures scaled <==> CanScale([Counter(true, old(timerCount))])
      ensures [Counter(true, timerCount)] ==
              if scaled then Scale([Counter(true, old(timerCount))]) else [Counter(true, old(timerCount))]
    {
      if timerCount >= MAX_COUNTER_VALUE {
        assert !CanScale([Counter(true, timerCount)]) by {
          assert [Counter(true, timerCount)][0].count >= MAX_COUNTER_VALUE;
        }
        return false;
      }
      timerCount := timerCount * ADAPT_DECAY_FACTOR;
      return true;
    }
  }

  // ---- the labelled stream ----

  /** What setup_ctrs loads the counters from: the count of an enabled counter, else zero. */
  function ResetValues(cs: seq<Counter>): (r: seq<nat>)
    ensures |r| == |cs| && forall i :: 0 <= i < |cs| ==> r[i] == if cs[i].enabled then cs[i].count else 0
  {
    seq(|cs|, i requires 0 <= i < |cs| => if cs[i].enabled then cs[i].count else 0)
  }

  function Times(x: nat, y: nat): nat { x * y }

  /** The periods that an ADAPT(v) record promises in a session begun with `base`. */
  function Promised(base: seq<Counter>, v: nat): (r: seq<nat>)
    ensures |r| == |base| && forall i :: 0 <= i < |base| ==> r[i] == Times(ResetValues(base)[i], v)
  {
    seq(|base|, i requires 0 <= i < |base| => Times(ResetValues(base)[i], v))
  }

  /** A ring entry, and a record made of it, with the reset values the counters ran under
    * when it was taken. */
  datatype Taken = Taken(e: OpSample, periods: seq<nat>)
  datatype Told = Told(r: Record, periods: seq<nat>)

  function Entries(ts: seq<Taken>): (es: seq<OpSample>)
    ensures |es| == |ts| && forall i :: 0 <= i < |ts| ==> es[i] == ts[i].e
  {
    seq(|ts|, i requires 0 <= i < |ts| => ts[i].e)
  }

  function Tell(rs: seq<Record>, periods: seq<nat>): (r: seq<Told>)
    ensures |r| == |rs| && forall i :: 0 <= i < |rs| ==> r[i] == Told(rs[i], periods)
  {
    seq(|rs|, i requires 0 <= i < |rs| => Told(rs[i], periods))
  }

  function TellAll(a: Arch, s: SyncState, ts: seq<Taken>): seq<Told> {
    if ts == [] then []
    else
      var init, last := ts[..|ts| - 1], ts[|ts| - 1];
      TellAll(a, s, init) + Tell(EmitOne(a, SyncAll(a, s, Entries(init)), last.e), last.periods)
  }

  datatype Control = Idle | Stopping(done: nat) | Adapting(done: nat)

  /** `config` is counter_config; `periods` what the hardware was last programmed with; `out`
    * what has been emitted since the last start, when the configuration was `base` and the
    * hardware's periods were `first`; `scalings` counts the adaptations since. A ring is
    * all that has been written to it since its last head read, whatever its size. */
  datatype State = State(rings: seq<seq<Taken>>, running: bool, control: Control,
                         config: seq<Counter>, periods: seq<nat>, adaptValue: nat, out: seq<Told>,
                         base: seq<Counter>, first: seq<nat>, scalings: nat)

  datatype Event =
    | Interrupt(cpu: nat, es: seq<OpSample>)      // a handler logs entries while counters run
    | Note(cpu: nat, es: seq<OpSample>)           // start and stop timestamps
    | WorkSync(cpu: nat, n: nat, picks: seq<nat>) // a batch taken by the periodic work
    | Configure(cs: seq<Counter>)                 // a write through oprofile_set_ulong
    | Program                                     // nmi_setup, at open
    | Start(ok: bool)
    | BeginStop
    | BeginAdapt
    | ControlSync(n: nat, picks: seq<nat>)        // sync_buffer(i) from stop or adapt
    | FinishStop
    | FinishAdapt(ok: bool)

  predicate OnlyCodes(a: Arch, es: seq<OpSample>) {
    forall i :: 0 <= i < |es| ==> IsCode(a, es[i])
  }

  predicate Enabled(a: Arch, s: State, e: Event) {
    match e
    case Interrupt(c, es) => c < |s.rings| && s.running && AllStorable(a, es)
    case Note(c, es) => c < |s.rings| && OnlyCodes(a, es) && AllStorable(a, es)
    case WorkSync(c, n, picks) => c < |s.rings| && n <= |s.rings[c]| && AllBelow(picks, |s.rings[c]|)
    case Configure(cs) => s.control.Idle? && !s.running && |cs| == |s.config|
    case Program => s.control.Idle? && !s.running
    case Start(_) => s.control.Idle? && !s.running
    case BeginStop => s.control.Idle? && s.running
    case BeginAdapt => s.control.Idle? && s.running
    case ControlSync(n, picks) =>
      && !s.control.Idle? && s.control.done < |s.rings|
      && var ring := s.rings[s.control.done];
         n <= |ring| && AllBelow(picks, |ring|) && NoSamples(a, ring[n..])
    case FinishStop => s.control == Stopping(|s.rings|)
    case FinishAdapt(_) => s.control == Adapting(|s.rings|)
  }

  function Take(es: seq<OpSample>, periods: seq<nat>): (ts: seq<Taken>)
    ensures |ts| == |es| && forall i :: 0 <= i < |es| ==> ts[i] == Taken(es[i], periods)
  {
    seq(|es|, i requires 0 <= i < |es| => Taken(es[i], periods))
  }

  function Log(s: State, c: nat, es: seq<OpSample>): State
    requires c < |s.rings|
  {
    s.(rings := s.rings[c := s.rings[c] + Take(es, s.periods)])
  }

  predicate AllBelow(picks: seq<nat>, n: nat) {
    forall j :: 0 <= j < |picks| ==> picks[j] < n
  }

  function Picked(ts: seq<Taken>, picks: seq<nat>): (r: seq<Taken>)
    requires AllBelow(picks, |ts|)
    ensures |r| == |picks| && forall j :: 0 <= j < |r| ==> r[j] == ts[picks[j]]
  {
    seq(|picks|, j requires 0 <= j < |picks| => ts[picks[j]])
  }

  /** A sync whose head read finds the first `n` of the entries written since the one before,
    * and whose loop sees those at `picks`, the same first ones unless the ring is overrun.
    * With the counters stopped, what comes in behind the head read are timestamps. */
  function Drain(a: Arch, s: State, c: nat, n: nat, picks: seq<nat>): State
    requires c < |s.rings| && n <= |s.rings[c]| && AllBelow(picks, |s.rings[c]|)
  {
    s.(rings := s.rings[c := s.rings[c][n..]],
       out := s.out + [Told(CpuSwitch(c), [])] + TellAll(a, SYNC_INIT, Picked(s.rings[c], picks)))
  }

  function EmitAdapt(s: State): State { s.(out := s.out + [Told(Adapt(s.adaptValue), [])]) }

  function Next(a: Arch, s: State, e: Event): State
    requires Enabled(a, s, e)
  {
    match e
    case Interrupt(c, es) => Log(s, c, es)
    case Note(c, es) => Log(s, c, es)
    case WorkSync(c, n, picks) => Drain(a, s, c, n, picks)
    case Configure(cs) => s.(config := cs)
    case Program => s.(periods := ResetValues(s.config))
    case Start(ok) =>
      EmitAdapt(s.(adaptValue := 1, out := [], base := s.config, first := s.periods, scalings := 0)).(running := ok)
    case BeginStop => s.(running := false, control := Stopping(0))
    case BeginAdapt => s.(running := false, control := Adapting(0))
    case ControlSync(n, picks) =>
      var i := s.control.done;
      Drain(a, s, i, n, picks).(control := if s.control.Stopping? then Stopping(i + 1) else Adapting(i + 1))
    case FinishStop => EmitAdapt(s).(control := Idle)
    case FinishAdapt(ok) =>
      var s' := if CanScale(s.config)
                then EmitAdapt(s.(config := Scale(s.config), periods := ResetValues(Scale(s.config)),
                                  adaptValue := a.ToWord(s.adaptValue * ADAPT_DECAY_FACTOR),
                                  scalings := s.scalings + 1))
                else s;
      s'.(control := Idle, running := ok)
  }

  /** The value of the last adaptation record. */
  function Label(out: seq<Told>): nat {
    if out == [] then 0
    else if out[|out| - 1].r.Adapt? then out[|out| - 1].r.interval
    else Label(out[..|out| - 1])
  }

  /** The periods samples labelled `v` were in fact taken under: those promised, except that
    * before the first adaptation it is what the hardware had been programmed with. */
  function Actual(base: seq<Counter>, first: seq<nat>, v: nat): seq<nat> {
    if v == 1 then first else Promised(base, v)
  }

  predicate Labelled(base: seq<Counter>, first: seq<nat>, out: seq<Told>) {
    forall i :: 0 <= i < |out| && out[i].r.Sample? ==> out[i].periods == Actual(base, first, Label(out[..i]))
  }

  predicate TakenUnder(a: Arch, ts: seq<Taken>, periods: seq<nat>) {
    forall i :: 0 <= i < |ts| && !IsCode(a, ts[i].e) ==> ts[i].periods == periods
  }

  predicate NoSamples(a: Arch, ts: seq<Taken>) {
    forall i :: 0 <= i < |ts| ==> IsCode(a, ts[i].e)
  }

  /** Ring `c` has been drained since the counters stopped. */
  predicate Drained(s: State, c: nat) {
    !s.running && (s.control.Idle? || c < s.control.done)
  }

  predicate RingsOk(a: Arch, s: State) {
    forall c :: 0 <= c < |s.rings| ==>
      if Drained(s, c) then NoSamples(a, s.rings[c]) else TakenUnder(a, s.rings[c], s.periods)
  }

  /** While a session is on, the configuration is the base, scaled as often as adapted, and
    * the hardware is programmed with it, once adapted. */
  predicate PeriodsOk(a: Arch, s: State) {
    && |s.base| == |s.config|
    && Scalable(s.base, s.scalings) && s.config == ScaleTimes(s.base, s.scalings)
    && s.periods == (if s.scalings == 0 then s.first else ResetValues(s.config))
  }

  predicate InSession(s: State) { s.running || !s.control.Idle? }

  predicate Inv(a: Arch, s: State) {
    && RingsOk(a, s)
    && (InSession(s) ==> PeriodsOk(a, s))
    && s.adaptValue == a.ToWord(Pow10(s.scalings))
    && (InSession(s) ==> Label(s.out) == s.adaptValue)
    && Labelled(s.base, s.first, s.out)
    && (!s.control.Idle? ==> !s.running)
  }

  // ---- the invariant is kept ----

  predicate NoAdapt(ts: seq<Told>) { forall i :: 0 <= i < |ts| ==> !ts[i].r.Adapt? }

  predicate SamplesUnder(ts: seq<Told>, periods: seq<nat>) {
    forall i :: 0 <= i < |ts| && ts[i].r.Sample? ==> ts[i].periods == periods
  }

  lemma {:induction false} LabelConcat(out: seq<Told>, more: seq<Told>)
    requires NoAdapt(more)
    ensures Label(out + more) == Label(out)
  {
    if more == [] {
      assert out + more == out;
    } else {
      LabelConcat(out, more[..|more| - 1]);
      assert (out + more)[..|out + more| - 1] == out + more[..|more| - 1];
    }
  }

  lemma LabelledConcat(base: seq<Counter>, first: seq<nat>, out: seq<Told>, more: seq<Told>)
    requires Labelled(base, first, out) && NoAdapt(more)
    requires SamplesUnder(more, Actual(base, first, Label(out)))
    ensures Labelled(base, first, out + more)
  {
    forall i | 0 <= i < |out + more| && (out + more)[i].r.Sample?
      ensures (out + more)[i].periods == Actual(base, first, Label((out + more)[..i]))
    {
      if i < |out| {
        assert (out + more)[..i] == out[..i];
      } else {
        assert (out + more)[..i] == out + more[..i - |out|];
        LabelConcat(out, more[..i - |out|]);
      }
    }
  }

  /** What is told of a batch has no adaptation records, and its samples are the batch's. */
  lemma {:induction false} TellAllSamples(a: Arch, s: SyncState, ts: seq<Taken>, periods: seq<nat>)
    requires TakenUnder(a, ts, periods)
    ensures NoAdapt(TellAll(a, s, ts)) && SamplesUnder(TellAll(a, s, ts), periods)
  {
    if ts != [] {
      var init, last := ts[..|ts| - 1], ts[|ts| - 1];
      TellAllSamples(a, s, init, periods);
      assert ts[|ts| - 1] == last;
    }
  }

  lemma DrainLabelled(a: Arch, s: State, c: nat, n: nat, picks: seq<nat>, periods: seq<nat>)
    requires c < |s.rings| && n <= |s.rings[c]| && AllBelow(picks, |s.rings[c]|)
    requires Labelled(s.base, s.first, s.out) && TakenUnder(a, s.rings[c], periods)
    requires periods == Actual(s.base, s.first, Label(s.out)) || NoSamples(a, s.rings[c])
    ensures Labelled(s.base, s.first, Drain(a, s, c, n, picks).out)
    ensures Label(Drain(a, s, c, n, picks).out) == Label(s.out)
  {
    var batch := Picked(s.rings[c], picks);
    var actual := Actual(s.base, s.first, Label(s.out));
    TellAllSamples(a, SYNC_INIT, batch, actual);
    var more := [Told(CpuSwitch(c), [])] + TellAll(a, SYNC_INIT, batch);
    LabelledConcat(s.base, s.first, s.out, more);
    LabelConcat(s.out, more);
    assert Drain(a, s, c, n, picks).out == s.out + more;
  }

  lemma EmitAdaptLabelled(s: State)
    requires Labelled(s.base, s.first, s.out)
    ensures Labelled(s.base, s.first, EmitAdapt(s).out) && Label(EmitAdapt(s).out) == s.adaptValue
  {
    var out' := EmitAdapt(s).out;
    assert out'[..|s.out|] == s.out;
    forall i | 0 <= i < |out'| && out'[i].r.Sample?
      ensures out'[i].periods == Actual(s.base, s.first, Label(out'[..i]))
    {
      assert out'[..i] == s.out[..i];
    }
  }

  lemma TimesTenWord(a: Arch, x: nat)
    ensures a.ToWord(a.ToWord(x) * 10) == a.ToWord(10 * x)
    ensures a.ToWord(10 * x) != 1
  {
    var w := a.WordLimit();
    var q, r := x / w, x % w;
    var q', r' := (10 * r) / w, (10 * r) % w;
    assert 10 * x == w * (10 * q + q') + r' by {
      assert x == w * q + r && 10 * r == w * q' + r';
      assert w * (10 * q + q') == 10 * (w * q) + w * q';
    }
    DivIs(10 * x, w, 10 * q + q', r');
    OddWord(a, 10 * x / w, 5 * x);
  }

  lemma OddWord(a: Arch, q: nat, half: nat)
    ensures 2 * half != a.WordLimit() * q + 1
  {
    var h := a.WordLimit() / 2;
    assert a.WordLimit() * q == 2 * (h * q) by {
      assert a.WordLimit() == 2 * h;
      assert 2 * h * q == 2 * (h * q);
    }
  }

  lemma Pow10Word(a: Arch, k: nat)
    ensures a.ToWord(a.ToWord(Pow10(k)) * 10) == a.ToWord(Pow10(k + 1))
    ensures k > 0 ==> a.ToWord(Pow10(k)) != 1
  {
    TimesTenWord(a, Pow10(k));
    if k > 0 {
      TimesTenWord(a, Pow10(k - 1));
    }
  }

  lemma Pow10IsWord(a: Arch, k: nat)
    requires k <= 9
    ensures a.ToWord(Pow10(k)) == Pow10(k)
  {
    Pow10Grows(k, 9);
    assert Pow10(3) == 1000 && Pow10(6) == 1000000 && Pow10(9) == 1000000000;
  }

  /** In a session the hardware runs under what the current label stands for. */
  lemma PeriodsAreActual(a: Arch, s: State)
    requires PeriodsOk(a, s) && s.adaptValue == a.ToWord(Pow10(s.scalings))
    ensures s.periods == Actual(s.base, s.first, s.adaptValue)
  {
    var k := s.scalings;
    Pow10Word(a, k);
    if k > 0 {
      ScaledCounts(s.base, k);
      forall i | 0 <= i < |s.base|
        ensures ResetValues(s.config)[i] == Times(ResetValues(s.base)[i], s.adaptValue)
      {
        if s.base[i].enabled && s.base[i].count >= 1 {
          AtMostNine(s.base, k, i);
          Pow10IsWord(a, k);
        }
      }
      assert s.periods == Promised(s.base, s.adaptValue);
    }
  }

  lemma DrainKeepsRings(a: Arch, s: State, s': State, c: nat, n: nat)
    requires RingsOk(a, s) && c < |s.rings| && n <= |s.rings[c]|
    requires s'.rings == s.rings[c := s.rings[c][n..]] && s'.periods == s.periods
    requires forall i :: 0 <= i < |s.rings| && i != c ==> Drained(s', i) == Drained(s, i)
    requires Drained(s', c) ==> Drained(s, c) || NoSamples(a, s.rings[c][n..])
    ensures RingsOk(a, s')
  {
    forall i | 0 <= i < |s'.rings|
      ensures if Drained(s', i) then NoSamples(a, s'.rings[i]) else TakenUnder(a, s'.rings[i], s'.periods)
    {
      if i == c && Drained(s, c) {
        assert NoSamples(a, s.rings[c]);
      }
    }
  }

  lemma DrainKeeps(a: Arch, s: State, c: nat, n: nat, picks: seq<nat>)
    requires Inv(a, s) && c < |s.rings| && n <= |s.rings[c]| && AllBelow(picks, |s.rings[c]|)
    ensures Labelled(s.base, s.first, Drain(a, s, c, n, picks).out)
    ensures Label(Drain(a, s, c, n, picks).out) == Label(s.out)
  {
    var actual := Actual(s.base, s.first, Label(s.out));
    if Drained(s, c) {
      DrainLabelled(a, s, c, n, picks, actual);
    } else {
      PeriodsAreActual(a, s);
      DrainLabelled(a, s, c, n, picks, s.periods);
    }
  }

  lemma LogKeepsRings(a: Arch, s: State, c: nat, es: seq<OpSample>)
    requires RingsOk(a, s) && c < |s.rings| && (s.running || OnlyCodes(a, es))
    ensures RingsOk(a, Log(s, c, es))
  {
    var s' := Log(s, c, es);
    forall i | 0 <= i < |s'.rings|
      ensures if Drained(s', i) then NoSamples(a, s'.rings[i]) else TakenUnder(a, s'.rings[i], s'.periods)
    {
      assert Drained(s', i) == Drained(s, i);
      if i != c {
        assert s'.rings[i] == s.rings[i];
      }
    }
  }

  lemma FinishAdaptKeeps(a: Arch, s: State, ok: bool)
    requires Inv(a, s) && Enabled(a, s, FinishAdapt(ok))
    ensures Inv(a, Next(a, s, FinishAdapt(ok)))
  {
    var s' := Next(a, s, FinishAdapt(ok));
    FinishAdaptKeepsRings(a, s, ok);
    FinishAdaptKeepsPeriods(a, s, ok);
    if CanScale(s.config) {
      EmitAdaptLabelled(s.(adaptValue := s'.adaptValue));
    }
  }

  lemma FinishAdaptKeepsRings(a: Arch, s: State, ok: bool)
    requires RingsOk(a, s) && Enabled(a, s, FinishAdapt(ok)) && !s.running
    ensures RingsOk(a, Next(a, s, FinishAdapt(ok)))
  {
    assert forall c :: 0 <= c < |s.rings| ==> Drained(s, c);
  }

  lemma FinishAdaptKeepsPeriods(a: Arch, s: State, ok: bool)
    requires PeriodsOk(a, s) && Enabled(a, s, FinishAdapt(ok)) && s.adaptValue == a.ToWord(Pow10(s.scalings))
    ensures var s' := Next(a, s, FinishAdapt(ok)); PeriodsOk(a, s') && s'.adaptValue == a.ToWord(Pow10(s'.scalings))
  {
    Pow10Word(a, s.scalings);
  }

  lemma DrainStepKeeps(a: Arch, s: State, c: nat, n: nat, picks: seq<nat>, control: Control)
    requires Inv(a, s) && c < |s.rings| && n <= |s.rings[c]| && AllBelow(picks, |s.rings[c]|)
    requires control == s.control
             || (NoSamples(a, s.rings[c][n..]) && ((s.control == Stopping(c) && control == Stopping(c + 1))
                                       || (s.control == Adapting(c) && control == Adapting(c + 1))))
    ensures Inv(a, Drain(a, s, c, n, picks).(control := control))
  {
    DrainKeeps(a, s, c, n, picks);
    DrainKeepsRings(a, s, Drain(a, s, c, n, picks).(control := control), c, n);
  }

  lemma LogKeeps(a: Arch, s: State, c: nat, es: seq<OpSample>)
    requires Inv(a, s) && c < |s.rings| && (s.running || OnlyCodes(a, es))
    ensures Inv(a, Log(s, c, es))
  {
    LogKeepsRings(a, s, c, es);
  }

  lemma ControlKeeps(a: Arch, s: State, e: Event)
    requires Inv(a, s) && Enabled(a, s, e)
    requires e.Configure? || e.Program? || e.BeginStop? || e.BeginAdapt?
    ensures Inv(a, Next(a, s, e))
  {
  }

  lemma StartKeeps(a: Arch, s: State, ok: bool)
    requires Inv(a, s) && Enabled(a, s, Start(ok))
    ensures Inv(a, Next(a, s, Start(ok)))
  {
    EmitAdaptLabelled(s.(adaptValue := 1, out := [], base := s.config, first := s.periods, scalings := 0));
    Pow10IsWord(a, 0);
  }

  lemma FinishStopKeeps(a: Arch, s: State)
    requires Inv(a, s) && Enabled(a, s, FinishStop)
    ensures Inv(a, Next(a, s, FinishStop))
  {
    EmitAdaptLabelled(s);
    assert forall c :: 0 <= c < |s.rings| ==> Drained(s, c);
  }

  lemma NextKeeps(a: Arch, s: State, e: Event)
    requires Inv(a, s) && Enabled(a, s, e)
    ensures Inv(a, Next(a, s, e))
  {
    match e {
      case Interrupt(c, es) => LogKeeps(a, s, c, es);
      case Note(c, es) => LogKeeps(a, s, c, es);
      case WorkSync(c, n, picks) => DrainStepKeeps(a, s, c, n, picks, s.control);
      case Configure(_) => ControlKeeps(a, s, e);
      case Program => ControlKeeps(a, s, e);
      case Start(ok) => StartKeeps(a, s, ok);
      case BeginStop => ControlKeeps(a, s, e);
      case BeginAdapt => ControlKeeps(a, s, e);
      case ControlSync(n, picks) => DrainStepKeeps(a, s, s.control.done, n, picks, Next(a, s, e).control);
      case FinishStop => FinishStopKeeps(a, s);
      case FinishAdapt(ok) => FinishAdaptKeeps(a, s, ok);
    }
  }

  // ---- all of it can be written in words ----

  function Records(ts: seq<Told>): (rs: seq<Record>)
    ensures |rs| == |ts| && forall i :: 0 <= i < |ts| ==> rs[i] == ts[i].r
  {
    seq(|ts|, i requires 0 <= i < |ts| => ts[i].r)
  }

  lemma RecordsConcat(xs: seq<Told>, ys: seq<Told>)
    ensures Records(xs + ys) == Records(xs) + Records(ys)
  {
  }

  /** The records told are those that sync_buffer emits. */
  lemma {:induction false} RecordsOfBatch(a: Arch, s: SyncState, ts: seq<Taken>)
    ensures Records(TellAll(a, s, ts)) == EmitAll(a, s, Entries(ts))
  {
    if ts != [] {
      var init, last := ts[..|ts| - 1], ts[|ts| - 1];
      RecordsOfBatch(a, s, init);
      assert Entries(ts)[..|ts| - 1] == Entries(init);
      var more := EmitOne(a, SyncAll(a, s, Entries(init)), last.e);
      RecordsConcat(TellAll(a, s, init), Tell(more, last.periods));
      assert Records(Tell(more, last.periods)) == more;
    }
  }

  /** What a sync adds to the stream. */
  lemma DrainTells(a: Arch, s: State, c: nat, n: nat, picks: seq<nat>)
    requires c < |s.rings| && n <= |s.rings[c]| && AllBelow(picks, |s.rings[c]|)
    ensures var s' := Drain(a, s, c, n, picks);
            && |s.out| <= |s'.out| && s'.out[..|s.out|] == s.out
            && Records(s'.out[|s.out|..]) == BatchRecords(a, c, Entries(Picked(s.rings[c], picks)))
  {
    var batch := Picked(s.rings[c], picks);
    var s' := Drain(a, s, c, n, picks);
    RecordsOfBatch(a, SYNC_INIT, batch);
    var more := [Told(CpuSwitch(c), [])] + TellAll(a, SYNC_INIT, batch);
    assert s'.out == s.out + more;
    RecordsConcat([Told(CpuSwitch(c), [])], TellAll(a, SYNC_INIT, batch));
    assert Records([Told(CpuSwitch(c), [])]) == [CpuSwitch(c)];
  }

  predicate Writable(a: Arch, s: State) {
    && |s.rings| <= a.WordLimit() && s.adaptValue < a.WordLimit()
    && (forall c :: 0 <= c < |s.rings| ==> AllStorable(a, Entries(s.rings[c])))
    && AllEncodable(a, Records(s.out))
  }

  lemma EncodableConcat(a: Arch, out: seq<Told>, more: seq<Told>)
    requires AllEncodable(a, Records(out)) && AllEncodable(a, Records(more))
    ensures AllEncodable(a, Records(out + more))
  {
    forall i | 0 <= i < |out + more|
      ensures Encodable(a, Records(out + more)[i])
    {
      if i < |out| {
        assert Records(out + more)[i] == Records(out)[i];
      } else {
        assert Records(out + more)[i] == Records(more)[i - |out|];
      }
    }
  }

  lemma {:induction false} TellAllEncodable(a: Arch, ts: seq<Taken>)
    requires AllStorable(a, Entries(ts))
    ensures AllEncodable(a, Records(TellAll(a, SYNC_INIT, ts)))
  {
    if ts != [] {
      var init, last := ts[..|ts| - 1], ts[|ts| - 1];
      assert Entries(ts)[..|ts| - 1] == Entries(init) && Entries(ts)[|ts| - 1] == last.e;
      assert AllStorable(a, Entries(init));
      TellAllEncodable(a, init);
      EmitAllEncodable(a, SYNC_INIT, Entries(init));
      var s := SyncAll(a, SYNC_INIT, Entries(init));
      EmitOneEncodable(a, s, last.e);
      assert Records(Tell(EmitOne(a, s, last.e), last.periods)) == EmitOne(a, s, last.e);
      EncodableConcat(a, TellAll(a, SYNC_INIT, init), Tell(EmitOne(a, s, last.e), last.periods));
    }
  }

  lemma DrainWritable(a: Arch, s: State, c: nat, n: nat, picks: seq<nat>)
    requires Writable(a, s) && c < |s.rings| && n <= |s.rings[c]| && AllBelow(picks, |s.rings[c]|)
    ensures Writable(a, Drain(a, s, c, n, picks))
  {
    var ring, batch := s.rings[c], Picked(s.rings[c], picks);
    assert Entries(ring[n..]) == Entries(ring)[n..];
    assert AllStorable(a, Entries(ring)[n..]);
    assert AllStorable(a, Entries(batch)) by {
      assert forall j :: 0 <= j < |picks| ==> Entries(batch)[j] == Entries(ring)[picks[j]];
    }
    TellAllEncodable(a, batch);
    EncodableConcat(a, s.out, [Told(CpuSwitch(c), [])]);
    EncodableConcat(a, s.out + [Told(CpuSwitch(c), [])], TellAll(a, SYNC_INIT, batch));
  }

  lemma LogWritable(a: Arch, s: State, c: nat, es: seq<OpSample>)
    requires Writable(a, s) && c < |s.rings| && AllStorable(a, es)
    ensures Writable(a, Log(s, c, es))
  {
    assert Entries(s.rings[c] + Take(es, s.periods)) == Entries(s.rings[c]) + es;
    assert AllStorable(a, Entries(s.rings[c]) + es);
  }

  lemma AdaptWritable(a: Arch, s: State)
    requires Writable(a, s)
    ensures Writable(a, EmitAdapt(s))
  {
    EncodableConcat(a, s.out, [Told(Adapt(s.adaptValue), [])]);
  }

  lemma NextWritable(a: Arch, s: State, e: Event)
    requires Writable(a, s) && Enabled(a, s, e)
    ensures Writable(a, Next(a, s, e))
  {
    match e {
      case Interrupt(c, es) => LogWritable(a, s, c, es);
      case Note(c, es) => LogWritable(a, s, c, es);
      case WorkSync(c, n, picks) => DrainWritable(a, s, c, n, picks);
      case Start(ok) =>
        AdaptWritable(a, s.(adaptValue := 1, out := [], base := s.config, first := s.periods, scalings := 0));
      case ControlSync(n, picks) => DrainWritable(a, s, s.control.done, n, picks);
      case FinishStop => AdaptWritable(a, s);
      case FinishAdapt(_) =>
        var c := Scale(s.config);
        AdaptWritable(a, s.(config := c, periods := ResetValues(c), adaptValue := a.ToWord(s.adaptValue * 10),
                            scalings := s.scalings + 1));
      case _ =>
    }
  }

  // ---- runs ----

  predicate Initial(a: Arch, s: State) {
    && |s.rings| <= a.WordLimit() && !s.running && s.control.Idle?
    && s.adaptValue == 1 && s.scalings == 0 && s.out == []
    && forall c :: 0 <= c < |s.rings| ==> s.rings[c] == []
  }

  predicate Possible(a: Arch, s: State, es: seq<Event>)
    decreases |es|, 0
  {
    es == [] || (Possible(a, s, es[..|es| - 1]) && Enabled(a, After(a, s, es[..|es| - 1]), es[|es| - 1]))
  }

  function After(a: Arch, s: State, es: seq<Event>): State
    requires Possible(a, s, es)
    decreases |es|, 1
  {
    if es == [] then s else Next(a, After(a, s, es[..|es| - 1]), es[|es| - 1])
  }

  lemma {:induction false} AlwaysInv(a: Arch, s: State, es: seq<Event>)
    requires Initial(a, s) && Possible(a, s, es)
    ensures Inv(a, After(a, s, es))
  {
    if es == [] {
      Pow10IsWord(a, 0);
    } else {
      AlwaysInv(a, s, es[..|es| - 1]);
      NextKeeps(a, After(a, s, es[..|es| - 1]), es[|es| - 1]);
    }
  }

  lemma {:induction false} AlwaysWritable(a: Arch, s: State, es: seq<Event>)
    requires Initial(a, s) && Possible(a, s, es)
    ensures Writable(a, After(a, s, es))
  {
    if es != [] {
      AlwaysWritable(a, s, es[..|es| - 1]);
      NextWritable(a, After(a, s, es[..|es| - 1]), es[|es| - 1]);
    }
  }

  /** The labels are true of the records: a sample behind an ADAPT(v) record was taken under
    * the periods promised for v, except that behind ADAPT(1) it is what the hardware was
    * programmed with at the start. */
  lemma LabelsAreTrue(a: Arch, s: State, es: seq<Event>, i: nat)
    requires Initial(a, s) && Possible(a, s, es)
    requires i < |After(a, s, es).out| && After(a, s, es).out[i].r.Sample?
    ensures var s' := After(a, s, es);
            var v := Label(s'.out[..i]);
            && s'.out[i].periods == Actual(s'.base, s'.first, v)
            && (s'.out[i].periods == Promised(s'.base, v) <==> v != 1 || s'.first == ResetValues(s'.base))
  {
    AlwaysInv(a, s, es);
    var s' := After(a, s, es);
    assert Promised(s'.base, 1) == ResetValues(s'.base);
  }

  /** The label as a daemon keeps it: the value of the last adaptation record it has read. */
  function LabelRead(rs: seq<Record>): nat {
    if rs == [] then 0
    else if rs[|rs| - 1].Adapt? then rs[|rs| - 1].interval
    else LabelRead(rs[..|rs| - 1])
  }

  lemma {:induction false} LabelIsRead(out: seq<Told>)
    ensures LabelRead(Records(out)) == Label(out)
  {
    if out != [] {
      LabelIsRead(out[..|out| - 1]);
      assert Records(out)[..|out| - 1] == Records(out[..|out| - 1]);
    }
  }

  /** The labels are true of the words. Whatever syncs, interrupts, configuration writes,
    * adaptations and restarts a run is made of, and wherever the words of the last session
    * are cut: a sample that a daemon parses behind an ADAPT(v) record was taken while each
    * counter ran with (its count at the start of the session) times v - exactly if v is not
    * 1, or the hardware had at the start been programmed with the configuration of the
    * start. Writing a count between opening the buffer and enabling breaks the first
    * label. */
  lemma WordsAreLabelled(a: Arch, s: State, es: seq<Event>, k: nat, i: nat)
    requires Initial(a, s) && Possible(a, s, es) && k <= |PrintAll(a, Records(After(a, s, es).out))|
    requires var rs := Parse(a, PrintAll(a, Records(After(a, s, es).out))[..k]).records; i < |rs| && rs[i].Sample?
    ensures var s' := After(a, s, es);
            var rs := Parse(a, PrintAll(a, Records(s'.out))[..k]).records;
            var v := LabelRead(rs[..i]);
            && i < |s'.out| && s'.out[i].r == rs[i]
            && (s'.out[i].periods == Promised(s'.base, v) <==> v != 1 || s'.first == ResetValues(s'.base))
  {
    AlwaysWritable(a, s, es);
    var out := After(a, s, es).out;
    var m := PrefixParses(a, Records(out), k);
    assert Records(out)[..m][..i] == Records(out[..i]);
    LabelIsRead(out[..i]);
    LabelsAreTrue(a, s, es, i);
  }

  // ---- and the condition is needed ----

  lemma Extend(a: Arch, s: State, es: seq<Event>, e: Event)
    requires Possible(a, s, es) && Enabled(a, After(a, s, es), e)
    ensures Possible(a, s, es + [e]) && After(a, s, es + [e]) == Next(a, After(a, s, es), e)
  {
    assert (es + [e])[..|es|] == es;
  }

  const LATER := [Counter(true, 7)]
  const IDLE := State([[]], false, Idle, [Counter(true, 100)], [], 1, [], [], [], 0)

  function Sampling(ring: seq<Taken>): State {
    State([ring], true, Idle, LATER, [100], 1, [Told(Adapt(1), [])], LATER, [100], 0)
  }

  lemma StaleStart(a: Arch) returns (es: seq<Event>)
    ensures Possible(a, IDLE, es) && After(a, IDLE, es) == Sampling([])
  {
    es := [Program];
    assert [] + [Program] == es;
    Extend(a, IDLE, [], Program);
    assert After(a, IDLE, es).periods == [100];
    Extend(a, IDLE, es, Configure(LATER));
    es := es + [Configure(LATER)];
    Extend(a, IDLE, es, Start(true));
    es := es + [Start(true)];
  }

  lemma StaleSample(a: Arch, ring: seq<Taken>) returns (es: seq<Event>)
    requires ring == [Taken(OpSample(a.Escape(), 0, 0), [100]), Taken(OpSample(5, 0, 0), [100])]
    ensures Possible(a, IDLE, es) && After(a, IDLE, es) == Sampling(ring)
  {
    es := StaleStart(a);
    var e := Interrupt(0, [ring[0].e, ring[1].e]);
    Extend(a, IDLE, es, e);
    assert [] + Take([ring[0].e, ring[1].e], [100]) == ring;
    es := es + [e];
  }

  /** One counter of 100, programmed; then the count is written to 7 and profiling started:
    * the first sample, labelled 1, was taken under 100. */
  lemma FirstLabelCanBeFalse(a: Arch) returns (es: seq<Event>, i: nat)
    ensures Initial(a, IDLE) && Possible(a, IDLE, es)
    ensures var s := After(a, IDLE, es);
            && i < |s.out| && s.out[i].r.Sample? && Label(s.out[..i]) == 1
            && s.out[i].periods == [100] && Promised(s.base, 1) == [7]
  {
    var ring := [Taken(OpSample(a.Escape(), 0, 0), [100]), Taken(OpSample(5, 0, 0), [100])];
    es := StaleSample(a, ring);
    Extend(a, IDLE, es, WorkSync(0, 2, [0, 1]));
    es := es + [WorkSync(0, 2, [0, 1])];
    i := 3;
    SampledUnder100(a, ring);
  }

  lemma SampledUnder100(a: Arch, ring: seq<Taken>)
    requires ring == [Taken(OpSample(a.Escape(), 0, 0), [100]), Taken(OpSample(5, 0, 0), [100])]
    ensures var out := Drain(a, Sampling(ring), 0, 2, [0, 1]).out;
            |out| == 4 && out[3] == Told(Sample(5, 0), [100]) && Label(out[..3]) == 1
  {
    assert Picked(ring, [0, 1]) == ring;
    TwoTold(a, ring[0].e, ring[1].e, [100]);
    FirstLabelIsOne(Told(CpuSwitch(0), []), Told(KernelExit, [100]), Drain(a, Sampling(ring), 0, 2, [0, 1]).out);
  }

  lemma FirstLabelIsOne(t: Told, u: Told, out: seq<Told>)
    requires !t.r.Adapt? && !u.r.Adapt? && |out| == 4 && out[0] == Told(Adapt(1), []) && out[1] == t && out[2] == u
    ensures Label(out[..3]) == 1
  {
    assert out[..3] == [out[0]] + [t, u];
    LabelConcat([out[0]], [t, u]);
  }

  lemma TwoTold(a: Arch, mode: OpSample, sample: OpSample, periods: seq<nat>)
    requires mode == OpSample(a.Escape(), 0, 0) && sample == OpSample(5, 0, 0)
    ensures TellAll(a, SYNC_INIT, [Taken(mode, periods), Taken(sample, periods)])
         == [Told(KernelExit, periods), Told(Sample(5, 0), periods)]
  {
    var t, u := Taken(mode, periods), Taken(sample, periods);
    assert [t, u][..1] == [t] && [t][..0] == [];
    assert Entries([t]) == [mode] && Entries([]) == [] && [mode][..0] == [];
    assert SyncAll(a, SYNC_INIT, [mode]) == SyncStep(a, SYNC_INIT, mode);
    assert TellAll(a, SYNC_INIT, [t]) == [] + Tell([KernelExit], periods);
  }
}
