/** The counters and the control registers of an Athlon (x86/op_model_athlon.c). */
module Athlon {
  import opened CounterPeriod
  import opened Words

  const NUM_COUNTERS := 4

  // Bits of the low half of a control register.
  const USER := 16
  const KERNEL := 17
  const ENABLE := 20
  const RESERVED := 21
  const ACTIVE := 22

  /** Bits of the high half that are cleared: the event's upper part, guest and host only. */
  const HIGH_CLEARED: Bits := {0, 1, 2, 3, 8, 9}

  /** One entry of counter_config. */
  datatype Setting = Setting(enabled: bool, count: nat, event: Bits, unitMask: Bits, user: bool, kernel: bool)

  /** The low half for an enabled counter: the unit mask is not cut to its eight bits. */
  function EnabledLow(low: Bits, c: Setting): Bits {
    low * {RESERVED} + {ENABLE} + (if c.user then {USER} else {}) + (if c.kernel then {KERNEL} else {})
    + ShiftLeft(c.unitMask, 8) + Slice(c.event, 0, 8)
  }

  function EnabledHigh(high: Bits, c: Setting): Bits {
    high - HIGH_CLEARED + Slice(c.event, 8, 4)
  }

  /** What the low half is meant to be. */
  predicate MeantLow(low: Bits, was: Bits, c: Setting) {
    && Slice(low, 0, 8) == Slice(c.event, 0, 8) && Slice(low, 8, 8) == Slice(c.unitMask, 0, 8)
    && (16 in low <==> c.user) && (17 in low <==> c.kernel)
    && 20 in low && 22 !in low && (21 in low <==> 21 in was)
    && forall b :: b in low && 16 <= b ==> b in {16, 17, 20, 21}
  }

  /** Bit `b` of a unit mask lands on a bit that is set anyway, or falls off the end. */
  predicate Harmless(b: nat, was: Bits, c: Setting) {
    || b < 8 || b + 8 >= INT_WIDTH
    || (b + 8 == USER && c.user) || (b + 8 == KERNEL && c.kernel) || b + 8 == ENABLE
    || (b + 8 == RESERVED && RESERVED in was)
  }

  function SetupLow(low: Bits, c: Setting): Bits {
    if c.enabled then EnabledLow(low, c) else low * {RESERVED}
  }

  function SetupHigh(high: Bits, c: Setting): Bits {
    if c.enabled then EnabledHigh(high, c) else high - HIGH_CLEARED
  }

  /** A counter that is off keeps bit 21 of its low half, and of the high half all but the event's
    * upper bits, guest and host only. */
  lemma OffByNumber(low: Bits, high: Bits, c: Setting)
    requires !c.enabled
    ensures forall b :: b in SetupLow(low, c) <==> b == 21 && 21 in low
    ensures forall b :: b in SetupHigh(high, c) <==> b in high && b !in {0, 1, 2, 3, 8, 9}
  {
  }

  lemma ClearedTwice(low: Bits, high: Bits, c: Setting)
    ensures EnabledLow(low * {RESERVED}, c) == EnabledLow(low, c)
    ensures EnabledHigh(high - HIGH_CLEARED, c) == EnabledHigh(high, c)
  {
    assert low * {RESERVED} * {RESERVED} == low * {RESERVED};
    assert high - HIGH_CLEARED - HIGH_CLEARED == high - HIGH_CLEARED;
  }

  lemma LowBit(was: Bits, c: Setting, b: nat)
    ensures b in EnabledLow(was, c) <==>
      || (b == RESERVED && RESERVED in was) || b == ENABLE || (b == USER && c.user) || (b == KERNEL && c.kernel)
      || (8 <= b < INT_WIDTH && b - 8 in c.unitMask) || (b < 8 && b in c.event)
  {
    ShiftedBit(c.unitMask, 8, b);
  }

  /** The control register of an enabled counter is as meant if and only if every bit of the
    * unit mask that does not fit is harmless. */
  lemma LowIsMeantIff(was: Bits, c: Setting)
    ensures MeantLow(EnabledLow(was, c), was, c) <==> forall b :: b in c.unitMask ==> Harmless(b, was, c)
  {
    var low := EnabledLow(was, c);
    forall b: nat
      ensures b in low <==>
        || (b == RESERVED && RESERVED in was) || b == ENABLE || (b == USER && c.user) || (b == KERNEL && c.kernel)
        || (8 <= b < INT_WIDTH && b - 8 in c.unitMask) || (b < 8 && b in c.event)
    {
      LowBit(was, c, b);
    }
    if forall b :: b in c.unitMask ==> Harmless(b, was, c) {
      forall b | b in low && 16 <= b
        ensures b in {USER, KERNEL, ENABLE, RESERVED}
      {
        assert b - 8 in c.unitMask ==> Harmless(b - 8, was, c);
      }
      assert USER - 8 in c.unitMask ==> Harmless(USER - 8, was, c);
      assert KERNEL - 8 in c.unitMask ==> Harmless(KERNEL - 8, was, c);
      assert ACTIVE !in low;
      assert RESERVED - 8 in c.unitMask ==> Harmless(RESERVED - 8, was, c);
    } else {
      var b :| b in c.unitMask && !Harmless(b, was, c);
      assert b + 8 in low;
    }
  }

  /** A unit mask with only its fifteenth bit set makes the counter active. */
  lemma MaskTurnsActiveOn()
    ensures var c := Setting(true, 1, {}, {14}, false, false);
            !MeantLow(EnabledLow({}, c), {}, c) && 22 in EnabledLow({}, c)
  {
    LowBit({}, Setting(true, 1, {}, {ACTIVE - 8}, false, false), ACTIVE);
  }

  lemma HighIsMeant(was: Bits, c: Setting)
    ensures Slice(EnabledHigh(was, c), 0, 4) == Slice(c.event, 8, 4)
    ensures 8 !in EnabledHigh(was, c) && 9 !in EnabledHigh(was, c)
    ensures forall b :: b !in {0, 1, 2, 3, 8, 9} ==> (b in EnabledHigh(was, c) <==> b in was)
  {
  }

  /** One overflow as the handler reports it: the interval since the last one and the
    * counter. */
  datatype Report = Report(begin: nat, end: nat, counter: nat)

  function Reports(values: seq<nat>, n: nat, begin: nat, end: nat): (r: seq<Report>)
    requires n <= |values|
    ensures forall i: nat :: Report(begin, end, i) in r <==> i < n && Overflowed(X86, values[i])
    ensures forall j :: 0 <= j < |r| ==> r[j] == Report(begin, end, r[j].counter) && r[j].counter < n
    ensures forall j, k :: 0 <= j < k < |r| ==> r[j].counter < r[k].counter
  {
    if n == 0 then []
    else Reports(values, n - 1, begin, end) + if Overflowed(X86, values[n - 1]) then [Report(begin, end, n - 1)] else []
  }

  /** What becomes of a counter at an interrupt. */
  function Serviced(value: nat, reset: nat): nat {
    if Overflowed(X86, value) then Load(X86, reset) else value
  }

  /** One CPU's registers, and the reset values, which the CPUs have in common. */
  class Registers {
    const counters: array<nat>
    const low: array<Bits>
    const high: array<Bits>
    const resetValue: array<nat>
    var startTimestamp: nat

    ghost predicate Valid() {
      && counters.Length == resetValue.Length == low.Length == high.Length == NUM_COUNTERS
      && counters != resetValue && low != high
    }

    method ClearAll()
      requires Valid()
      modifies counters, low, high
      ensures forall i :: 0 <= i < NUM_COUNTERS ==>
        counters[i] == X86Load(1) && low[i] == old(low[i]) * {RESERVED} && high[i] == old(high[i]) - HIGH_CLEARED
    {
      for i := 0 to NUM_COUNTERS
        modifies low, high
        invariant forall j :: 0 <= j < i ==>
          low[j] == old(low[j]) * {RESERVED} && high[j] == old(high[j]) - HIGH_CLEARED
        invariant forall j :: i <= j < NUM_COUNTERS ==> low[j] == old(low[j]) && high[j] == old(high[j])
      {
        low[i], high[i] := low[i] * {RESERVED}, high[i] - HIGH_CLEARED;
      }
      for i := 0 to NUM_COUNTERS
        modifies counters
        invariant forall j :: 0 <= j < i ==> counters[j] == X86Load(1)
      {
        counters[i] := X86Load(1);
      }
    }

    method EnableCtr(i: nat, c: Setting)
      requires Valid() && i < NUM_COUNTERS
      modifies counters, low, high, resetValue
      ensures counters[..] == old(counters[..])[i := Load(X86, c.count)]
      ensures resetValue[..] == old(resetValue[..])[i := c.count]
      ensures low[..] == old(low[..])[i := EnabledLow(old(low[i]), c)]
      ensures high[..] == old(high[..])[i := EnabledHigh(old(high[i]), c)]
    {
      resetValue[i] := c.count;
      counters[i] := X86Load(c.count);
      low[i], high[i] := EnabledLow(low[i], c), EnabledHigh(high[i], c);
    }

    /** athlon_setup_ctrs. */
    method SetupCtrs(cs: seq<Setting>)
      requires Valid() && |cs| == NUM_COUNTERS
      modifies counters, low, high, resetValue
      ensures forall i :: 0 <= i < NUM_COUNTERS ==> counters[i] == Load(X86, if cs[i].enabled then cs[i].count else 1)
      ensures forall i :: 0 <= i < NUM_COUNTERS ==> resetValue[i] == if cs[i].enabled then cs[i].count else 0
      ensures forall i :: 0 <= i < NUM_COUNTERS ==> low[i] == SetupLow(old(low[i]), cs[i])
      ensures forall i :: 0 <= i < NUM_COUNTERS ==> high[i] == SetupHigh(old(high[i]), cs[i])
    {
      ClearAll();
      for i := 0 to NUM_COUNTERS
        invariant forall j :: 0 <= j < i ==> counters[j] == Load(X86, if cs[j].enabled then cs[j].count else 1)
        invariant forall j :: i <= j < NUM_COUNTERS ==> counters[j] == Load(X86, 1)
        invariant forall j :: 0 <= j < i ==> resetValue[j] == if cs[j].enabled then cs[j].count else 0
        invariant forall j :: 0 <= j < i ==> low[j] == SetupLow(old(low[j]), cs[j])
        invariant forall j :: i <= j < NUM_COUNTERS ==> low[j] == old(low[j]) * {RESERVED}
        invariant forall j :: 0 <= j < i ==> high[j] == SetupHigh(old(high[j]), cs[j])
        invariant forall j :: i <= j < NUM_COUNTERS ==> high[j] == old(high[j]) - HIGH_CLEARED
      {
        if cs[i].enabled {
          ClearedTwice(old(low[i]), old(high[i]), cs[i]);
          EnableCtr(i, cs[i]);
        } else {
          resetValue[i] := 0;
        }
      }
    }

    /** athlon_start. */
    method Start(now: nat)
      requires Valid()
      modifies this`startTimestamp, low
      ensures startTimestamp == now
      ensures forall i :: 0 <= i < NUM_COUNTERS ==>
        low[i] == if resetValue[i] != 0 then old(low[i]) + {22} else old(low[i])
    {
      startTimestamp := now;
      for i := 0 to NUM_COUNTERS
        modifies low
        invariant forall j :: 0 <= j < NUM_COUNTERS ==>
          low[j] == if j < i && resetValue[j] != 0 then old(low[j]) + {ACTIVE} else old(low[j])
      {
        if resetValue[i] != 0 {
          low[i] := low[i] + {ACTIVE};
        }
      }
    }

    /** athlon_stop. */
    method Stop()
      requires Valid()
      modifies low
      ensures forall i :: 0 <= i < NUM_COUNTERS ==> low[i] == old(low[i]) - {22}
    {
      for i := 0 to NUM_COUNTERS
        invariant forall j :: 0 <= j < NUM_COUNTERS ==> low[j] == if j < i then old(low[j]) - {ACTIVE} else old(low[j])
      {
        low[i] := low[i] - {ACTIVE};
      }
    }

    method ReportOverflows(end: nat) returns (reports: seq<Report>)
      requires Valid()
      modifies counters
      ensures reports == Reports(old(counters[..]), NUM_COUNTERS, startTimestamp, end)
      ensures forall i :: 0 <= i < NUM_COUNTERS ==> counters[i] == Serviced(old(counters[i]), resetValue[i])
    {
      reports := [];
      for i := 0 to NUM_COUNTERS
        invariant reports == Reports(old(counters[..]), i, startTimestamp, end)
        invariant forall j :: 0 <= j < i ==> counters[j] == Serviced(old(counters[j]), resetValue[j])
        invariant forall j :: i <= j < NUM_COUNTERS ==> counters[j] == old(counters[j])
      {
        assert old(counters[..])[i] == counters[i];
        if counters[i] % WORD < TOP {
          reports := reports + [Report(startTimestamp, end, i)];
          counters[i] := X86Load(resetValue[i]);
        }
      }
    }

    /** athlon_check_ctrs, at `end`, with the counters going again at `restart` and the
      * interval counted from `again`: a report for each counter that has overflowed, in
      * order, and those are reloaded. */
    method CheckCtrs(end: nat, restart: nat, again: nat) returns (reports: seq<Report>)
      requires Valid()
      modifies this`startTimestamp, counters, low
      ensures reports == Reports(old(counters[..]), NUM_COUNTERS, old(startTimestamp), end)
      ensures forall i :: 0 <= i < NUM_COUNTERS ==>
        counters[i] == if old(counters[i]) % 0x1_0000_0000 < 0x8000_0000 then Load(X86, resetValue[i])
                       else old(counters[i])
      ensures forall i :: 0 <= i < NUM_COUNTERS ==>
        low[i] == old(low[i]) - {22} + if resetValue[i] != 0 then {22} else {}
      ensures startTimestamp == again
    {
      Stop();
      reports := ReportOverflows(end);
      Start(restart);
      startTimestamp := again;
    }
  }
}
