/** The POWER4 register image (powerpc/op_model_power4.c): events, adder lanes and the shared
  * unit and byte lane multiplexers of up to eight counters, packed into MMCR0 and MMCR1. */
module Power4 {
  import opened CounterPeriod
  import opened Words

  /** One entry of the counter configuration. */
  datatype Config = Config(enabled: bool, event: Bits, unitMask: Bits, count: nat)

  datatype Mmcr = Mmcr(mmcr0: Bits, mmcr1: Bits)

  const NUM_PMCS := 8
  const KERNEL_DISABLE := 30
  const PROBLEM_DISABLE := 29

  // ---- the 24 fields: events, adder lane selects, and the multiplexers ----

  const ADDER := 8
  const TTM0 := 16
  const TTM1 := 17
  const TTM3 := 18
  const DBG0 := 19
  const DBG1 := 20
  const DBG2 := 21
  const DBG3 := 22
  const SPC := 23
  const NUM_FIELDS := 24

  /** The shift of a field. Fields 0 and 1 are in MMCR0, the others in MMCR1. */
  function Low(f: nat): nat {
    match f
    case 0 => 8 case 1 => 1
    case 2 => 27 case 3 => 22 case 4 => 17 case 5 => 12 case 6 => 7 case 7 => 2
    case 8 => 39 case 9 => 38 case 10 => 33 case 11 => 32 case 12 => 36 case 13 => 37 case 14 => 34 case 15 => 35
    case 16 => 62 case 17 => 59 case 18 => 53
    case 19 => 50 case 20 => 48 case 21 => 46 case 22 => 44
    case _ => 0
  }

  /** The number of bits of its mask. */
  function Size(f: nat): nat {
    if f < ADDER then 5 else if f < TTM0 then 1 else 2
  }

  predicate InField(f: nat, b: nat) {
    Low(f) <= b < Low(f) + Size(f)
  }

  /** The field of MMCR1 that a bit belongs to. */
  function Owner(b: nat): nat {
    if b < 2 then SPC
    else if b < 7 then 7 else if b < 12 then 6 else if b < 17 then 5 else if b < 22 then 4 else if b < 27 then 3
    else if b < 32 then 2
    else if b == 32 then 11 else if b == 33 then 10 else if b == 34 then 14 else if b == 35 then 15
    else if b == 36 then 12 else if b == 37 then 13 else if b == 38 then 9 else if b == 39 then 8
    else if b < 46 then DBG3 else if b < 48 then DBG2 else if b < 50 then DBG1 else if b < 53 then DBG0
    else if b < 59 then TTM3 else if b < 62 then TTM1 else TTM0
  }

  /** All packed fields are disjoint. */
  lemma FieldsAreDisjoint(f: nat, b: nat)
    requires f < NUM_FIELDS && InField(f, b)
    ensures b < WIDTH
    ensures 2 <= f ==> Owner(b) == f
    ensures f == 0 ==> !InField(1, b)
  {
  }

  /** (value << shift) & mask. */
  function Put(f: nat, value: Bits): Bits {
    set b: nat | b < WIDTH && PutBit(f, value, b)
  }

  predicate PutBit(f: nat, value: Bits, b: nat) {
    InField(f, b) && b - Low(f) in value
  }

  /** The fields from `from` on, or-ed together. */
  function OrFields(values: seq<Bits>, from: nat): Bits
    requires |values| <= NUM_FIELDS
    decreases |values| - from
  {
    if from >= |values| then {} else Put(from, values[from]) + OrFields(values, from + 1)
  }

  lemma {:induction false} OrFieldsBit(values: seq<Bits>, from: nat, b: nat)
    requires 2 <= from <= |values| <= NUM_FIELDS
    ensures b in OrFields(values, from) <==>
      from <= Owner(b) < |values| && PutBit(Owner(b), values[Owner(b)], b)
    decreases |values| - from
  {
    if from < |values| {
      OrFieldsBit(values, from + 1, b);
      if InField(from, b) {
        FieldsAreDisjoint(from, b);
      }
      if Owner(b) < NUM_FIELDS && InField(Owner(b), b) {
        FieldsAreDisjoint(Owner(b), b);
      }
    }
  }

  function Image(values: seq<Bits>): Mmcr
    requires |values| == NUM_FIELDS
  {
    Mmcr(Put(0, values[0]) + Put(1, values[1]), OrFields(values, 2))
  }

  /** What a field of the two registers reads. */
  function Field(m: Mmcr, f: nat): Bits {
    Slice(if f < 2 then m.mmcr0 else m.mmcr1, Low(f), Size(f))
  }

  /** Every field reads back the low bits of what was put in. */
  lemma ImageRoundTrip(values: seq<Bits>, f: nat)
    requires |values| == NUM_FIELDS && f < NUM_FIELDS
    ensures Field(Image(values), f) == Slice(values[f], 0, Size(f))
  {
    forall b: nat | b < Size(f)
      ensures b + Low(f) in (if f < 2 then Image(values).mmcr0 else Image(values).mmcr1) <==> b in values[f]
    {
      FieldsAreDisjoint(f, b + Low(f));
      if f < 2 {
        FieldsAreDisjoint(0, 8);
        assert PutBit(f, values[f], b + Low(f)) <==> b in values[f];
      } else {
        OrFieldsBit(values, 2, b + Low(f));
      }
    }
  }

  // ---- the fields' values ----

  const ONE: Bits := {0}
  const TWO: Bits := {1}
  const THREE: Bits := {0, 1}
  const FOUR: Bits := {2}
  /** Event 8, for a counter that is not enabled. */
  const IDLE: Bits := {3}

  function UnitSelect(c: Config): Bits { Slice(c.unitMask, 12, 4) }
  function UnitValue(c: Config): Bits { Slice(c.unitMask, 8, 4) }
  function LaneSelect(c: Config): Bits { Slice(c.unitMask, 4, 4) }
  function LaneValue(c: Config): Bits { Slice(c.unitMask, 0, 4) }

  /** The unit value of the highest-numbered of the first `n` counters that selects `sel`,
    * zero if none does. */
  function LastUnit(cs: seq<Config>, n: nat, sel: Bits): (value: Bits)
    requires n <= |cs|
  {
    if n == 0 then {} else if UnitSelect(cs[n - 1]) == sel then UnitValue(cs[n - 1]) else LastUnit(cs, n - 1, sel)
  }

  function LastLane(cs: seq<Config>, n: nat, sel: Bits): (value: Bits)
    requires n <= |cs|
  {
    if n == 0 then {} else if LaneSelect(cs[n - 1]) == sel then LaneValue(cs[n - 1]) else LastLane(cs, n - 1, sel)
  }

  lemma {:induction false} LastWins(cs: seq<Config>, n: nat, sel: Bits, i: nat)
    requires i < n <= |cs|
    ensures UnitSelect(cs[i]) == sel && (forall j :: i < j < n ==> UnitSelect(cs[j]) != sel) ==>
              LastUnit(cs, n, sel) == UnitValue(cs[i])
    ensures LaneSelect(cs[i]) == sel && (forall j :: i < j < n ==> LaneSelect(cs[j]) != sel) ==>
              LastLane(cs, n, sel) == LaneValue(cs[i])
  {
    if i < n - 1 {
      LastWins(cs, n - 1, sel, i);
    }
  }

  /** What reg_setup means field `f` to hold. */
  function Meant(cs: seq<Config>, f: nat): Bits
    requires |cs| <= NUM_PMCS
  {
    if f < ADDER then if f >= |cs| then {} else if cs[f].enabled then Slice(cs[f].event, 0, 5) else IDLE
    else if f < TTM0 then if f - ADDER >= |cs| then {} else Slice(cs[f - ADDER].event, 5, 1)
    else match f
      case 16 => LastUnit(cs, |cs|, ONE)
      case 17 => LastUnit(cs, |cs|, TWO)
      case 18 => LastUnit(cs, |cs|, THREE)
      case 19 => LastLane(cs, |cs|, ONE)
      case 20 => LastLane(cs, |cs|, TWO)
      case 21 => LastLane(cs, |cs|, THREE)
      case 22 => LastLane(cs, |cs|, FOUR)
      case _ => LastUnit(cs, |cs|, FOUR)
  }

  class Monitor {
    var mmcr0: Bits
    var mmcr1: Bits
    var mmcra: Bits
    const resetValue: array<nat>

    ghost predicate Valid() {
      resetValue.Length == NUM_PMCS
    }

    method SetMuxes(cs: seq<Config>) returns (muxes: seq<Bits>)
      requires |cs| <= NUM_PMCS
      ensures |muxes| == 8 && forall f :: TTM0 <= f < NUM_FIELDS ==> muxes[f - TTM0] == Meant(cs, f)
    {
      var ttm0, ttm1, ttm3, spc: Bits := {}, {}, {}, {};
      var dbg0, dbg1, dbg2, dbg3: Bits := {}, {}, {}, {};
      SelectsDiffer();
      for i := 0 to |cs|
        invariant ttm0 == LastUnit(cs, i, ONE) && ttm1 == LastUnit(cs, i, TWO) && ttm3 == LastUnit(cs, i, THREE)
        invariant spc == LastUnit(cs, i, FOUR)
        invariant dbg0 == LastLane(cs, i, ONE) && dbg1 == LastLane(cs, i, TWO)
        invariant dbg2 == LastLane(cs, i, THREE) && dbg3 == LastLane(cs, i, FOUR)
      {
        var unit, lane := UnitSelect(cs[i]), LaneSelect(cs[i]);
        if unit == ONE {
          ttm0 := UnitValue(cs[i]);
        } else if unit == TWO {
          ttm1 := UnitValue(cs[i]);
        } else if unit == THREE {
          ttm3 := UnitValue(cs[i]);
        } else if unit == FOUR {
          spc := UnitValue(cs[i]);
        }
        if lane == ONE {
          dbg0 := LaneValue(cs[i]);
        } else if lane == TWO {
          dbg1 := LaneValue(cs[i]);
        } else if lane == THREE {
          dbg2 := LaneValue(cs[i]);
        } else if lane == FOUR {
          dbg3 := LaneValue(cs[i]);
        }
      }
      muxes := [ttm0, ttm1, ttm3, dbg0, dbg1, dbg2, dbg3, spc];
    }

    method GatherValues(cs: seq<Config>) returns (values: seq<Bits>)
      requires |cs| <= NUM_PMCS
      ensures |values| == NUM_FIELDS && forall f :: 0 <= f < NUM_FIELDS ==> values[f] == Meant(cs, f)
    {
      var ctrAddrSel := new Bits[NUM_PMCS](_ => {});
      var ctrEvent := new Bits[NUM_PMCS](_ => {});
      for i := 0 to |cs|
        invariant forall j :: 0 <= j < NUM_PMCS ==> ctrAddrSel[j] == if j < i then Slice(cs[j].event, 5, 1) else {}
        invariant forall j :: 0 <= j < NUM_PMCS ==> ctrEvent[j] == {}
      {
        ctrAddrSel[i] := Slice(cs[i].event, 5, 1);
      }
      for i := 0 to |cs|
        invariant forall j :: 0 <= j < NUM_PMCS ==>
          ctrEvent[j] == if j >= i then {} else if cs[j].enabled then Slice(cs[j].event, 0, 5) else IDLE
        invariant forall j :: 0 <= j < NUM_PMCS ==> ctrAddrSel[j] == Meant(cs, ADDER + j)
      {
        ctrEvent[i] := if cs[i].enabled then Slice(cs[i].event, 0, 5) else IDLE;
      }
      var muxes := SetMuxes(cs);
      values := ctrEvent[..] + ctrAddrSel[..] + muxes;
      assert forall f :: 0 <= f < ADDER ==> ctrEvent[f] == Meant(cs, f);
      JoinMeant(cs, ctrEvent[..], ctrAddrSel[..], muxes);
    }

    /** power4_reg_setup. */
    method RegSetup(cs: seq<Config>, enableKernel: bool, enableUser: bool)
      requires Valid() && |cs| <= NUM_PMCS
      modifies `mmcr0, `mmcr1, `mmcra, resetValue
      ensures HoldsMeant(Mmcr(mmcr0, mmcr1), cs)
      ensures (30 in mmcr0 <==> !enableKernel) && (29 in mmcr0 <==> !enableUser)
      ensures forall b :: b in mmcr0 && !IsSwitch(b) ==> InField(0, b) || InField(1, b)
      ensures forall b :: b in mmcr1 ==> 2 <= Owner(b) < NUM_FIELDS && InField(Owner(b), b)
      ensures mmcra == {}
      ensures forall i :: 0 <= i < |cs| ==> resetValue[i] == PowerLoad(cs[i].count)
    {
      var values := GatherValues(cs);
      for i := 0 to |cs|
        modifies resetValue
        invariant forall j :: 0 <= j < i ==> resetValue[j] == PowerLoad(cs[j].count)
      {
        resetValue[i] := (0x8000_0000 - cs[i].count) % 0x1_0000_0000;
      }
      mmcr0 := Put(0, values[0]) + Put(1, values[1]);
      mmcr1 := OrFields(values, 2);
      mmcra := {};
      if enableKernel {
        mmcr0 := mmcr0 - {KERNEL_DISABLE};
      } else {
        mmcr0 := mmcr0 + {KERNEL_DISABLE};
      }
      if enableUser {
        mmcr0 := mmcr0 - {PROBLEM_DISABLE};
      } else {
        mmcr0 := mmcr0 + {PROBLEM_DISABLE};
      }
      SwitchedImage(values, Mmcr(mmcr0, mmcr1));
    }
  }

  predicate IsSwitch(b: nat) {
    b == KERNEL_DISABLE || b == PROBLEM_DISABLE
  }

  /** The image with the two switches set or cleared. */
  lemma SwitchedImage(values: seq<Bits>, m: Mmcr)
    requires |values| == NUM_FIELDS && m.mmcr1 == Image(values).mmcr1
    requires forall b :: !IsSwitch(b) ==> (b in m.mmcr0 <==> b in Image(values).mmcr0)
    ensures forall f :: 0 <= f < NUM_FIELDS ==> Field(m, f) == Slice(values[f], 0, Size(f))
    ensures forall b :: b in m.mmcr0 && !IsSwitch(b) ==> InField(0, b) || InField(1, b)
    ensures forall b :: b in m.mmcr1 ==> 2 <= Owner(b) < NUM_FIELDS && InField(Owner(b), b)
  {
    forall f | 0 <= f < NUM_FIELDS
      ensures Field(m, f) == Slice(values[f], 0, Size(f))
    {
      ImageRoundTrip(values, f);
      SwitchesAreNoFields(Image(values), m, f);
    }
    forall b | b in m.mmcr1
      ensures 2 <= Owner(b) < NUM_FIELDS && InField(Owner(b), b)
    {
      OrFieldsBit(values, 2, b);
    }
    forall b | b in m.mmcr0 && !IsSwitch(b)
      ensures InField(0, b) || InField(1, b)
    {
      assert PutBit(0, values[0], b) || PutBit(1, values[1], b);
    }
  }

  lemma JoinMeant(cs: seq<Config>, events: seq<Bits>, adders: seq<Bits>, muxes: seq<Bits>)
    requires |cs| <= NUM_PMCS && |events| == |adders| == |muxes| == 8
    requires forall f :: 0 <= f < 8 ==> events[f] == Meant(cs, f) && adders[f] == Meant(cs, ADDER + f)
    requires forall f :: TTM0 <= f < NUM_FIELDS ==> muxes[f - TTM0] == Meant(cs, f)
    ensures forall f :: 0 <= f < NUM_FIELDS ==> (events + adders + muxes)[f] == Meant(cs, f)
  {
    forall f | 0 <= f < NUM_FIELDS
      ensures (events + adders + muxes)[f] == Meant(cs, f)
    {
      if f < 8 {
      } else if f < 16 {
        assert adders[f - 8] == Meant(cs, ADDER + (f - 8));
      } else {
      }
    }
  }

  lemma SelectsDiffer()
    ensures ONE != TWO && ONE != THREE && ONE != FOUR && TWO != THREE && TWO != FOUR && THREE != FOUR
  {
    assert 0 in ONE && 0 !in TWO && 0 !in FOUR && 1 in TWO && 1 !in FOUR && 1 in THREE && 1 !in ONE;
  }

  lemma SwitchesAreNoFields(m: Mmcr, n: Mmcr, f: nat)
    requires f < NUM_FIELDS && n.mmcr1 == m.mmcr1
    requires forall b :: !IsSwitch(b) ==> (b in n.mmcr0 <==> b in m.mmcr0)
    ensures Field(n, f) == Field(m, f)
  {
  }

  // ---- the registers by number ----

  /** What RegSetup promises of the fields. */
  predicate HoldsMeant(m: Mmcr, cs: seq<Config>) {
    |cs| <= NUM_PMCS && forall f :: 0 <= f < NUM_FIELDS ==> Field(m, f) == Slice(Meant(cs, f), 0, Size(f))
  }

  function EventPlace(i: nat): nat {
    match i
    case 0 => 8 case 1 => 1 case 2 => 27 case 3 => 22 case 4 => 17 case 5 => 12 case 6 => 7 case _ => 2
  }

  function AdderPlace(i: nat): nat {
    match i
    case 0 => 39 case 1 => 38 case 2 => 33 case 3 => 32 case 4 => 36 case 5 => 37 case 6 => 34 case _ => 35
  }

  /** The lowest bit of the multiplexer that a select from 1 to 4 is for. */
  function UnitPlace(select: nat): nat {
    match select case 1 => 62 case 2 => 59 case 3 => 53 case _ => 0
  }

  function LanePlace(select: nat): nat {
    match select case 1 => 50 case 2 => 48 case 3 => 46 case _ => 44
  }

  lemma FieldBit(m: Mmcr, f: nat, value: Bits, b: nat)
    requires f < NUM_FIELDS && b < Size(f) && Field(m, f) == Slice(value, 0, Size(f))
    ensures b + Low(f) in (if f < 2 then m.mmcr0 else m.mmcr1) <==> b in value
  {
    assert b in Field(m, f) <==> b in Slice(value, 0, Size(f));
  }

  /** Five bits of each event, event 8 in those of a counter that is off, and its sixth bit. */
  lemma EventsByNumber(m: Mmcr, cs: seq<Config>, i: nat, b: nat)
    requires HoldsMeant(m, cs) && i < |cs| && b < 5
    ensures EventPlace(i) + b in (if i < 2 then m.mmcr0 else m.mmcr1)
            <==> if cs[i].enabled then b in cs[i].event else b == 3
    ensures AdderPlace(i) in m.mmcr1 <==> 5 in cs[i].event
  {
    FieldBit(m, i, Meant(cs, i), b);
    FieldBit(m, ADDER + i, Meant(cs, ADDER + i), 0);
  }

  /** The value of four bits. */
  function Nibble(w: Bits, low: nat): (n: nat)
    ensures n < 16
  {
    (if low in w then 1 else 0) + (if low + 1 in w then 2 else 0)
    + (if low + 2 in w then 4 else 0) + (if low + 3 in w then 8 else 0)
  }

  lemma NibbleIs(w: Bits, low: nat)
    ensures Slice(w, low, 4) == ONE <==> Nibble(w, low) == 1
    ensures Slice(w, low, 4) == TWO <==> Nibble(w, low) == 2
    ensures Slice(w, low, 4) == THREE <==> Nibble(w, low) == 3
    ensures Slice(w, low, 4) == FOUR <==> Nibble(w, low) == 4
  {
    var s := Slice(w, low, 4);
    assert (0 in s <==> low in w) && (1 in s <==> low + 1 in w);
    assert (2 in s <==> low + 2 in w) && (3 in s <==> low + 3 in w);
    assert forall b :: b in s ==> b < 4;
  }

  /** Counter `i` is the last one whose nibble at `low` is `n`. */
  predicate LastToSelect(cs: seq<Config>, i: nat, low: nat, n: nat) {
    i < |cs| && Nibble(cs[i].unitMask, low) == n && forall j :: i < j < |cs| ==> Nibble(cs[j].unitMask, low) != n
  }

  predicate NoneSelects(cs: seq<Config>, low: nat, n: nat) {
    forall j :: 0 <= j < |cs| ==> Nibble(cs[j].unitMask, low) != n
  }

  function Select(n: nat): Bits {
    match n case 1 => ONE case 2 => TWO case 3 => THREE case _ => FOUR
  }

  lemma {:induction false} NoneIsZero(cs: seq<Config>, k: nat, n: nat)
    requires k <= |cs| && 1 <= n <= 4
    ensures NoneSelects(cs, 12, n) ==> LastUnit(cs, k, Select(n)) == {}
    ensures NoneSelects(cs, 4, n) ==> LastLane(cs, k, Select(n)) == {}
  {
    if k > 0 {
      NoneIsZero(cs, k - 1, n);
      NibbleIs(cs[k - 1].unitMask, 12);
      NibbleIs(cs[k - 1].unitMask, 4);
    }
  }

  lemma LastIsValue(cs: seq<Config>, i: nat, n: nat)
    requires 1 <= n <= 4
    ensures LastToSelect(cs, i, 12, n) ==> LastUnit(cs, |cs|, Select(n)) == Slice(cs[i].unitMask, 8, 4)
    ensures LastToSelect(cs, i, 4, n) ==> LastLane(cs, |cs|, Select(n)) == Slice(cs[i].unitMask, 0, 4)
  {
    forall j | 0 <= j < |cs|
      ensures UnitSelect(cs[j]) == Select(n) <==> Nibble(cs[j].unitMask, 12) == n
      ensures LaneSelect(cs[j]) == Select(n) <==> Nibble(cs[j].unitMask, 4) == n
    {
      NibbleIs(cs[j].unitMask, 12);
      NibbleIs(cs[j].unitMask, 4);
    }
    if i < |cs| {
      LastWins(cs, |cs|, Select(n), i);
    }
  }

  /** A multiplexer holds two bits of the last unit mask whose nibble selects it, and is clear if
    * none does: the unit ones bits 8 and 9 by the nibble at 12, the byte lane ones bits 0 and
    * 1 by the nibble at 4. */
  lemma MuxesByNumber(m: Mmcr, cs: seq<Config>, n: nat, i: nat, b: nat)
    requires HoldsMeant(m, cs) && 1 <= n <= 4 && b < 2
    ensures LastToSelect(cs, i, 12, n) ==> (UnitPlace(n) + b in m.mmcr1 <==> 8 + b in cs[i].unitMask)
    ensures LastToSelect(cs, i, 4, n) ==> (LanePlace(n) + b in m.mmcr1 <==> b in cs[i].unitMask)
    ensures NoneSelects(cs, 12, n) ==> UnitPlace(n) + b !in m.mmcr1
    ensures NoneSelects(cs, 4, n) ==> LanePlace(n) + b !in m.mmcr1
  {
    var unit, lane := if n == 4 then SPC else TTM0 + n - 1, DBG0 + n - 1;
    FieldBit(m, unit, Meant(cs, unit), b);
    FieldBit(m, lane, Meant(cs, lane), b);
    NoneIsZero(cs, |cs|, n);
    LastIsValue(cs, i, n);
  }

  /** Event 8 goes with whatever adder lane the unused event asked for. */
  lemma SixBits(m: Mmcr, cs: seq<Config>, i: nat)
    requires HoldsMeant(m, cs) && i < |cs|
    ensures Field(m, i) + (if 0 in Field(m, ADDER + i) then {5} else {})
         == if cs[i].enabled then Slice(cs[i].event, 0, 6) else IDLE + (if 5 in cs[i].event then {5} else {})
  {
    assert Field(m, i) == Slice(Meant(cs, i), 0, 5);
    assert Field(m, ADDER + i) == Slice(Meant(cs, ADDER + i), 0, 1);
    assert 0 in Field(m, ADDER + i) <==> 5 in cs[i].event;
    forall b: nat | cs[i].enabled && b < 5
      ensures b in Field(m, i) <==> b in cs[i].event
    {
    }
  }
}
