/** Programming the RS64 performance monitor (powerpc/op_model_rs64.c): each counter's event
  * goes into a field of MMCR0 or MMCR1 by a read, a change and a write. */
module Rs64 {
  import opened CounterPeriod
  import opened Words

  /** MMCR0_FC. */
  const FREEZE := 31
  /** MMCR0_PMXE. */
  const TRIGGER := 26

  /** One entry of the counter configuration. */
  datatype Config = Config(enabled: bool, event: Bits, count: nat)

  /** The two control registers. */
  datatype Mmcr = Mmcr(mmcr0: Bits, mmcr1: Bits)

  /** The shift for a counter's field, and the number of bits of its mask. */
  function Low(i: nat): nat {
    match i case 0 => 6 case 1 => 0 case 2 => 27 case 3 => 22 case 4 => 17 case 5 => 12 case 6 => 7 case _ => 3
  }

  function Size(i: nat): nat {
    match i case 0 => 7 case 1 => 6 case 7 => 4 case _ => 5
  }

  function Register(m: Mmcr, i: nat): Bits {
    if i < 2 then m.mmcr0 else m.mmcr1
  }

  predicate InField(i: nat, b: nat) {
    Low(i) <= b < Low(i) + Size(i)
  }

  /** mask << shift. */
  function Mask(i: nat): Bits {
    set b: nat | b < INT_WIDTH && InField(i, b)
  }

  /** The event that a counter's field holds. */
  function Field(m: Mmcr, i: nat): Bits {
    Slice(Register(m, i), Low(i), Size(i))
  }

  /** The fields by number, as masks in place. */
  lemma FieldsByNumber(b: nat)
    ensures (InField(0, b) <==> 6 <= b <= 12) && (InField(1, b) <==> b <= 5)
    ensures (InField(2, b) <==> 27 <= b <= 31) && (InField(3, b) <==> 22 <= b <= 26)
    ensures (InField(4, b) <==> 17 <= b <= 21) && (InField(5, b) <==> 12 <= b <= 16)
    ensures (InField(6, b) <==> 7 <= b <= 11) && (InField(7, b) <==> 3 <= b <= 6)
  {
  }

  /** An event that is no wider than the mask. */
  predicate FitsField(i: nat, event: Bits) {
    forall b :: b in event ==> b < Size(i)
  }

  /** ctrl_write as a change of the registers: the value is not cut to the mask, and for a
    * counter that does not exist it replaces MMCR1. */
  function CtrlWritten(m: Mmcr, i: nat, val: Bits): Mmcr {
    if i >= 8 then m.(mmcr1 := ShiftLeft(val, 0))
    else
      var r := Register(m, i) - Mask(i) + ShiftLeft(val, Low(i));
      if i < 2 then m.(mmcr0 := r) else m.(mmcr1 := r)
  }

  /** Every bit that a write leaves behind. */
  lemma BitAfterWrite(m: Mmcr, i: nat, val: Bits, j: nat, b: nat)
    requires i < 8 && j < 8
    ensures b in Register(CtrlWritten(m, i, val), j) <==>
      if i < 2 <==> j < 2
      then (b in Register(m, j) && !InField(i, b)) || (b < INT_WIDTH && b >= Low(i) && b - Low(i) in val)
      else b in Register(m, j)
  {
    ShiftedBit(val, Low(i), b);
  }

  lemma FieldsAreDisjoint(i: nat, j: nat, b: nat)
    requires i < 8 && j < 8 && i != j && (i < 2 <==> j < 2)
    ensures !(InField(i, b) && InField(j, b))
  {
  }

  // ---- the start loop ----

  /** The registers once the first `n` counters have been dealt with. */
  function Started(m: Mmcr, cs: seq<Config>, n: nat): Mmcr
    requires n <= |cs|
  {
    if n == 0 then m
    else if cs[n - 1].enabled then CtrlWritten(Started(m, cs, n - 1), n - 1, cs[n - 1].event)
    else Started(m, cs, n - 1)
  }

  predicate AllFit(cs: seq<Config>, n: nat)
    requires n <= |cs|
  {
    forall i :: 0 <= i < n && cs[i].enabled ==> FitsField(i, cs[i].event)
  }

  /** Bit `b` of the register of counter `j` lies in the field of enabled counter `i`. */
  predicate Owns(cs: seq<Config>, n: nat, i: nat, j: nat, b: nat)
    requires n <= |cs|
  {
    i < n && cs[i].enabled && InField(i, b) && (i < 2 <==> j < 2)
  }

  /** Bit `b` of the register of counter `j` lies in the field of no enabled counter. */
  predicate Spare(cs: seq<Config>, n: nat, j: nat, b: nat)
    requires n <= |cs|
  {
    forall i :: 0 <= i < n ==> !Owns(cs, n, i, j, b)
  }

  lemma SpareBefore(cs: seq<Config>, n: nat, j: nat, b: nat)
    requires 0 < n <= |cs| && Spare(cs, n, j, b)
    ensures Spare(cs, n - 1, j, b) && !Owns(cs, n, n - 1, j, b)
  {
    var m := n - 1;
    forall i | 0 <= i < m
      ensures !Owns(cs, m, i, j, b)
    {
      assert !Owns(cs, n, i, j, b);
    }
  }

  /** The bits of an enabled counter's field are those of its event, whatever is written
    * after it. */
  lemma {:induction false} OwnBits(m: Mmcr, cs: seq<Config>, n: nat, i: nat, b: nat)
    requires n <= |cs| && n <= 8 && i < 8 && AllFit(cs, n) && Owns(cs, n, i, i, b)
    ensures b in Register(Started(m, cs, n), i) <==> b - Low(i) in cs[i].event
  {
    if cs[n - 1].enabled {
      BitAfterWrite(Started(m, cs, n - 1), n - 1, cs[n - 1].event, i, b);
    }
    if i < n - 1 {
      OwnBits(m, cs, n - 1, i, b);
      if n - 1 < 2 <==> i < 2 {
        FieldsAreDisjoint(n - 1, i, b);
      }
    }
  }

  /** The bits of no enabled counter's field are as they were. */
  lemma {:induction false} OtherBits(m: Mmcr, cs: seq<Config>, n: nat, j: nat, b: nat)
    requires n <= |cs| && n <= 8 && j < 8 && AllFit(cs, n)
    requires Spare(cs, n, j, b)
    ensures b in Register(Started(m, cs, n), j) <==> b in Register(m, j)
  {
    if n > 0 {
      SpareBefore(cs, n, j, b);
      OtherBits(m, cs, n - 1, j, b);
      if cs[n - 1].enabled {
        BitAfterWrite(Started(m, cs, n - 1), n - 1, cs[n - 1].event, j, b);
      }
    }
  }

  lemma FieldIsEvent(m: Mmcr, cs: seq<Config>, n: nat, i: nat)
    requires n <= |cs| && n <= 8 && AllFit(cs, n) && i < n && cs[i].enabled
    ensures Field(Started(m, cs, n), i) == cs[i].event
  {
    forall b: nat
      ensures b in Field(Started(m, cs, n), i) <==> b in cs[i].event
    {
      if b < Size(i) {
        OwnBits(m, cs, n, i, b + Low(i));
      }
    }
  }

  /** After the start loop every enabled counter's field holds its own event if and only if
    * each enabled event fits its mask; then every other bit is as it was. */
  lemma StartedIffFits(m: Mmcr, cs: seq<Config>, n: nat)
    requires n <= |cs| && n <= 8
    ensures (forall i :: 0 <= i < n && cs[i].enabled ==> Field(Started(m, cs, n), i) == cs[i].event) <==> AllFit(cs, n)
    ensures AllFit(cs, n) ==>
      forall j: nat, b: nat :: j < 8 && Spare(cs, n, j, b) ==>
        (b in Register(Started(m, cs, n), j) <==> b in Register(m, j))
  {
    if AllFit(cs, n) {
      forall i | 0 <= i < n && cs[i].enabled
        ensures Field(Started(m, cs, n), i) == cs[i].event
      {
        FieldIsEvent(m, cs, n, i);
      }
      forall j: nat, b: nat | j < 8 && Spare(cs, n, j, b)
        ensures b in Register(Started(m, cs, n), j) <==> b in Register(m, j)
      {
        OtherBits(m, cs, n, j, b);
      }
    } else {
      var i :| 0 <= i < n && cs[i].enabled && !FitsField(i, cs[i].event);
      assert FitsField(i, Field(Started(m, cs, n), i));
    }
  }

  /** An event too wide for the field of counter 1 turns up in that of counter 0. */
  lemma TooWide(m: Mmcr)
    requires Field(m, 0) == {}
    ensures var cs := [Config(false, {}, 0), Config(true, {6}, 1)];
            Field(Started(m, cs, 2), 1) == {} && Field(Started(m, cs, 2), 0) == {0}
  {
    var cs := [Config(false, {}, 0), Config(true, {6}, 1)];
    assert Started(m, cs, 1) == Started(m, cs, 0);
    forall b: nat
      ensures b in Register(Started(m, cs, 2), 0) <==> (b in m.mmcr0 && !InField(1, b)) || b == 6
    {
      BitAfterWrite(m, 1, {6}, 0, b);
    }
    forall b: nat
      ensures b in Field(Started(m, cs, 2), 0) <==> b == 0
    {
      assert b in Field(m, 0) <==> b < WIDTH && Sliced(m.mmcr0, Low(0), Size(0), b);
    }
  }

  class Monitor {
    var mmcr0: Bits
    var mmcr1: Bits
    const pmc: array<nat>
    const resetValue: array<nat>
    var numCounters: nat

    ghost predicate Valid()
      reads this
    {
      pmc.Length == 8 && resetValue.Length == 8 && pmc != resetValue && numCounters <= 8
    }

    ghost function Control(): Mmcr
      reads this
    {
      Mmcr(mmcr0, mmcr1)
    }

    method CtrlWrite(i: nat, val: Bits)
      modifies `mmcr0, `mmcr1
      ensures Control() == CtrlWritten(old(Control()), i, val)
    {
      var tmp, shift: nat, mask: Bits := {}, 0, {};
      if i < 8 {
        tmp := if i < 2 then mmcr0 else mmcr1;
        shift, mask := Low(i), Mask(i);
      }
      tmp := tmp - mask;
      tmp := tmp + ShiftLeft(val, shift);
      if i < 2 {
        mmcr0 := tmp;
      } else {
        mmcr1 := tmp;
      }
    }

    /** rs64_reg_setup. */
    method RegSetup(cs: seq<Config>)
      requires Valid() && |cs| <= 8
      modifies `numCounters, resetValue
      ensures Valid() && numCounters == |cs|
      ensures forall i :: 0 <= i < |cs| ==> resetValue[i] == PowerLoad(cs[i].count)
    {
      numCounters := |cs|;
      for i := 0 to numCounters
        invariant numCounters == |cs|
        invariant forall j :: 0 <= j < i ==> resetValue[j] == PowerLoad(cs[j].count)
      {
        resetValue[i] := (0x8000_0000 - cs[i].count) % 0x1_0000_0000;
      }
    }

    /** rs64_start. */
    method Start(cs: seq<Config>)
      requires Valid() && numCounters <= |cs|
      modifies `mmcr0, `mmcr1, pmc
      ensures Valid()
      ensures var m := Started(old(Control()), cs, numCounters); Control() == m.(mmcr0 := m.mmcr0 - {31})
      ensures forall i :: 0 <= i < numCounters ==> pmc[i] == if cs[i].enabled then resetValue[i] else 0
      ensures forall i :: numCounters <= i < 8 ==> pmc[i] == old(pmc[i])
    {
      for i := 0 to numCounters
        invariant Control() == Started(old(Control()), cs, i)
        invariant forall j :: 0 <= j < i ==> pmc[j] == if cs[j].enabled then resetValue[j] else 0
        invariant forall j :: i <= j < 8 ==> pmc[j] == old(pmc[j])
      {
        if cs[i].enabled {
          pmc[i] := resetValue[i];
          CtrlWrite(i, cs[i].event);
        } else {
          pmc[i] := 0;
        }
      }
      mmcr0 := mmcr0 - {FREEZE};
    }

    /** rs64_handle_interrupt: a sample for each enabled counter that has overflowed. */
    method HandleInterrupt(cs: seq<Config>) returns (samples: seq<nat>)
      requires Valid() && numCounters <= |cs|
      modifies `mmcr0, pmc
      ensures Valid() && mmcr0 == old(mmcr0) + {26} - {31}
      ensures forall i: nat :: i in samples <==>
        i < numCounters && cs[i].enabled && Overflowed(Power, old(pmc[..])[i])
      ensures forall i, j :: 0 <= i < j < |samples| ==> samples[i] < samples[j]
      ensures forall i :: 0 <= i < 8 ==>
        pmc[i] == if i >= numCounters || !Overflowed(Power, old(pmc[i])) then old(pmc[i])
                  else if cs[i].enabled then resetValue[i] else 0
    {
      samples := [];
      for i := 0 to numCounters
        invariant forall j: nat :: j in samples <==> j < i && cs[j].enabled && Overflowed(Power, old(pmc[..])[j])
        invariant forall j, k :: 0 <= j < k < |samples| ==> samples[j] < samples[k]
        invariant forall j :: 0 <= j < |samples| ==> samples[j] in samples
        invariant forall j :: i <= j < 8 ==> pmc[j] == old(pmc[j])
        invariant mmcr0 == old(mmcr0)
        invariant forall j :: 0 <= j < i ==>
          pmc[j] == if !Overflowed(Power, old(pmc[j])) then old(pmc[j]) else if cs[j].enabled then resetValue[j] else 0
      {
        var val := pmc[i];
        if Overflowed(Power, val) {
          if cs[i].enabled {
            samples := samples + [i];
            pmc[i] := resetValue[i];
          } else {
            pmc[i] := 0;
          }
        }
      }
      mmcr0 := mmcr0 + {TRIGGER} - {FREEZE};
    }
  }

  /** Letting the counters go, at the end of the start, touches no field. */
  lemma ThawKeepsFields(m: Mmcr, i: nat)
    requires i < 8
    ensures Field(m.(mmcr0 := m.mmcr0 - {31}), i) == Field(m, i)
  {
    var thawed := m.(mmcr0 := m.mmcr0 - {FREEZE});
    forall b: nat
      ensures Sliced(Register(thawed, i), Low(i), Size(i), b) <==> Sliced(Register(m, i), Low(i), Size(i), b)
    {
    }
  }
}
