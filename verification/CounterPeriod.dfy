/** How often a counter asks for a sample: x86 counters are loaded with minus the count and
  * have overflowed when their top bit is clear (x86/op_model_athlon.c), POWER counters are
  * loaded with 2^31 minus the count and have when it is set (powerpc/op_model_rs64.c), and
  * the timer divides ticks in software (driver/timer_int_2.6.35.c). */
module CounterPeriod {
  import opened EventStream
  import opened Numbers

  const WORD := 0x1_0000_0000
  const TOP := 0x8000_0000

  /** A way to count: the value loaded for a count, and the overflow test. */
  datatype Kind = X86 | Power

  /** -(unsigned int)count. */
  function X86Load(count: nat): nat { (WORD - count % WORD) % WORD }

  /** 0x80000000 - count, as 32 bits. */
  function PowerLoad(count: nat): nat { (TOP - count) % WORD }

  function Load(k: Kind, count: nat): nat {
    if k.X86? then X86Load(count) else PowerLoad(count)
  }

  /** CTR_OVERFLOWED looks for a clear top bit, (int)val < 0 for a set one. */
  predicate Overflowed(k: Kind, counter: nat) {
    if k.X86? then counter % WORD < TOP else counter % WORD >= TOP
  }

  function After(k: Kind, count: nat, events: nat): nat {
    (Load(k, count) + events) % WORD
  }

  predicate FirstOverflowAt(k: Kind, count: nat, events: nat) {
    && Overflowed(k, After(k, count, events))
    && forall e: nat :: e < events ==> !Overflowed(k, After(k, count, e))
  }

  /** The events until the first overflow. */
  function Period(count: nat): nat {
    if count % WORD <= TOP then count % WORD else 0
  }

  lemma LoadIs(k: Kind, count: nat)
    ensures var low := count % WORD;
            Load(k, count) == if k.X86? then (if low == 0 then 0 else WORD - low)
                              else if low <= TOP then TOP - low else TOP - low + WORD
  {
    var low, q := count % WORD, count / WORD;
    assert count == WORD * q + low;
    if k.Power? {
      assert TOP - count == (TOP - low) + WORD * (0 - q);
    }
  }

  lemma AfterIs(k: Kind, count: nat, e: nat)
    requires e <= Period(count) && 0 < Period(count)
    ensures After(k, count, e) ==
      if k.Power? then TOP - Period(count) + e else if e == Period(count) then 0 else WORD - Period(count) + e
  {
    LoadIs(k, count);
  }

  /** Nothing overflows before the period is over, and the counter has then. */
  lemma OverflowsFirst(k: Kind, count: nat)
    ensures FirstOverflowAt(k, count, Period(count))
  {
    if Period(count) == 0 {
      LoadIs(k, count);
    } else {
      AfterIs(k, count, Period(count));
    }
    forall e: nat | e < Period(count)
      ensures !Overflowed(k, After(k, count, e))
    {
      AfterIs(k, count, e);
    }
  }

  /** The period is the count itself for exactly the counts up to 2^31: a larger one is
    * taken for an overflow at once, or for its low 32 bits. */
  lemma PeriodIsCountIff(k: Kind, count: nat)
    ensures FirstOverflowAt(k, count, count) <==> count <= TOP
  {
    OverflowsFirst(k, count);
    if count > TOP {
      assert Period(count) < count;
    }
  }

  // ---- a run of events, each overflow serviced before the next event ----

  datatype Counter = Counter(value: nat, samples: nat)

  /** One event, and what the interrupt handler then does. */
  function Event(k: Kind, count: nat, c: Counter): Counter {
    var value := (c.value + 1) % WORD;
    if Overflowed(k, value) then Counter(Load(k, count), c.samples + 1) else Counter(value, c.samples)
  }

  function Events(k: Kind, count: nat, n: nat): Counter {
    if n == 0 then Counter(Load(k, count), 0) else Event(k, count, Events(k, count, n - 1))
  }

  lemma NextValue(k: Kind, count: nat, e: nat)
    ensures (After(k, count, e) + 1) % WORD == After(k, count, e + 1)
    ensures After(k, count, 0) == Load(k, count)
  {
  }

  lemma EventStep(k: Kind, count: nat, e: nat, samples: nat)
    requires 1 <= count <= TOP && e < count
    ensures Event(k, count, Counter(After(k, count, e), samples)) ==
      if e == count - 1 then Counter(After(k, count, 0), samples + 1) else Counter(After(k, count, e + 1), samples)
  {
    OverflowsFirst(k, count);
    assert Period(count) == count;
    NextValue(k, count, e);
    assert Overflowed(k, After(k, count, e + 1)) <==> e + 1 == count;
  }

  lemma EventsStep(k: Kind, count: nat, n: nat, e: nat, samples: nat)
    requires 1 <= count <= TOP && e < count && Events(k, count, n) == Counter(After(k, count, e), samples)
    ensures Events(k, count, n + 1) ==
      if e == count - 1 then Counter(After(k, count, 0), samples + 1) else Counter(After(k, count, e + 1), samples)
  {
    EventStep(k, count, e, samples);
  }

  /** N events give N / count samples, for every count from 1 to 2^31. */
  lemma {:induction false} SamplesPerEvents(k: Kind, count: nat, n: nat)
    requires 1 <= count <= TOP
    ensures Events(k, count, n) == Counter(After(k, count, n % count), n / count)
  {
    if n == 0 {
      DivIs(0, count, 0, 0);
      NextValue(k, count, 0);
    } else {
      var e, samples := (n - 1) % count, (n - 1) / count;
      SamplesPerEvents(k, count, n - 1);
      EventsStep(k, count, n - 1, e, samples);
      DivStep(n - 1, count);
    }
  }

  // ---- the timer ----

  /** int arithmetic of the kernel, which is compiled to wrap around. */
  function Wrap(x: int): int { if x > INT_MAX then x - WORD else x }

  /** The conversion of an int to unsigned long. */
  function ToUnsigned(a: Arch, x: int): int { if x < 0 then x + a.WordLimit() else x }

  predicate IsInt(x: int) { -INT_MAX - 1 <= x <= INT_MAX }

  /** One tick: the divider after it, and whether it gives a sample. */
  function Tick(a: Arch, count: nat, pop: int): (int, bool) {
    var p := Wrap(pop + 1);
    if ToUnsigned(a, p) >= count then (0, true) else (p, false)
  }

  /** The tick divider of one CPU. */
  class Timer {
    const arch: Arch
    var pop: int
    var timerCount: nat

    constructor (a: Arch, count: nat)
      ensures arch == a && pop == 0 && timerCount == count
    {
      arch, pop, timerCount := a, 0, count;
    }

    /** oprofile_hrtimer_notify. */
    method Notify() returns (sample: bool)
      requires IsInt(pop)
      modifies `pop
      ensures IsInt(pop) && (pop, sample) == Tick(arch, timerCount, old(pop))
    {
      pop := Wrap(pop + 1);
      sample := false;
      if ToUnsigned(arch, pop) >= timerCount {
        sample := true;
        pop := 0;
      }
    }
  }

  function Ticks(a: Arch, count: nat, n: nat): (int, nat) {
    if n == 0 then (0, 0)
    else
      var (pop, samples) := Ticks(a, count, n - 1);
      var (p, sample) := Tick(a, count, pop);
      (p, samples + if sample then 1 else 0)
  }

  /** The ticks from one sample to the next. An int above 2^31 turns negative, which 64-bit
    * words take for a very large number. */
  function TickPeriod(a: Arch, count: nat): nat
    requires count < a.WordLimit()
  {
    if count == 0 then 1
    else if a.Ilp32? || count <= TOP then count
    else if count <= a.WordLimit() - TOP then TOP
    else WORD - (a.WordLimit() - count)
  }

  /** The divider after `u` ticks without a sample. */
  function PopAfter(u: nat): int { if u <= INT_MAX then u else u - WORD }

  lemma TickStep(a: Arch, count: nat, u: nat)
    requires count < a.WordLimit() && u < TickPeriod(a, count)
    ensures Tick(a, count, PopAfter(u)) == if u == TickPeriod(a, count) - 1 then (0, true) else (PopAfter(u + 1), false)
  {
  }

  /** N ticks give N / TickPeriod samples, and the period is the count that was asked for
    * except for a count of zero and, with 64-bit words, one above 2^31. */
  lemma {:induction false} SamplesPerTicks(a: Arch, count: nat, n: nat)
    requires count < a.WordLimit()
    ensures Ticks(a, count, n) == (PopAfter(n % TickPeriod(a, count)), n / TickPeriod(a, count))
    ensures TickPeriod(a, count) == count <==> 0 < count && (a.Ilp32? || count <= TOP)
  {
    var period := TickPeriod(a, count);
    if n == 0 {
      DivIs(0, period, 0, 0);
    } else {
      SamplesPerTicks(a, count, n - 1);
      DivStep(n - 1, period);
      TickStep(a, count, (n - 1) % period);
    }
  }

  /** A sample every 2^31 + 1 ticks is asked for, and comes after 2^31. */
  lemma TimerCanBeEarly()
    ensures Ticks(Lp64, TOP + 1, TOP).1 == 1 && TickPeriod(Lp64, TOP + 1) == TOP
  {
    SamplesPerTicks(Lp64, TOP + 1, TOP);
  }
}
