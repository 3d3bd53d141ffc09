/** The Pentium 4 register model (x86/op_model_p4.c): which registers each logical CPU
  * saves, which ones its setup writes, and what the setup leaves in them. */
module P4 {
  import opened Sequences
  import opened Wrappers
  import opened Msr

  /** `siblings`: two hyper-threads share the registers of a package. */
  datatype Chip = Chip(siblings: bool, model: nat)

  /** One entry of counter_config. */
  datatype Config = Config(enabled: bool, event: nat, count: bv32, unitMask: bv32, user: bv32, kernel: bv32)

  /** A counter that an event may use, and the ESCR for it. The driver has 1 << counter,
    * and 0 for no counter. */
  datatype Binding = Binding(counter: Option<nat>, escr: nat)

  datatype Event = Event(escrSelect: bv32, eventSelect: bv32, first: Binding, second: Binding)

  const NUM_EVENTS := 39
  const MISC_ENABLE := 0x1a0
  const BPU_CCCR0 := 0x360
  const IQ_CCCR5 := 0x371
  const BSU_ESCR0 := 0x3a0
  const BSU_ESCR1 := 0x3a1
  const IQ_ESCR0 := 0x3ba
  const IQ_ESCR1 := 0x3bb
  const RAT_ESCR0 := 0x3bc
  const SSU_ESCR0 := 0x3be
  const MS_ESCR0 := 0x3c0
  const TC_ESCR1 := 0x3c5
  const IX_ESCR0 := 0x3c8
  const CRU_ESCR3 := 0x3cd
  const CRU_ESCR4 := 0x3e0
  const CRU_ESCR5 := 0x3e1

  const NULL := Binding(None, 0)
  const ZERO := Value(0, 0)

  function Increment(chip: Chip): (step: nat) {
    if chip.siblings then 2 else 1
  }

  function NumCounters(chip: Chip): nat {
    if chip.siblings then 4 else 8
  }

  function NumControls(chip: Chip): nat {
    if chip.siblings then 32 else 63
  }

  /** The CPUs of a chip: stagger 1 is the second hyper-thread. */
  predicate Thread(chip: Chip, stag: nat) {
    stag == 0 || (chip.siblings && stag == 1)
  }

  /** VIRT_CTR. */
  function Virtual(chip: Chip, stag: nat, i: nat): (k: nat)
    requires Thread(chip, stag) && i < NumCounters(chip)
    ensures k < 8
  {
    i + NumCounters(chip) * stag
  }

  function CounterAddress(k: nat): nat
    requires k < 8
  {
    match k
    case 0 => 0x300 case 1 => 0x304 case 2 => 0x308 case 3 => 0x310
    case 4 => 0x302 case 5 => 0x306 case 6 => 0x30a case _ => 0x311
  }

  function CccrAddress(k: nat): nat
    requires k < 8
  {
    match k
    case 0 => 0x360 case 1 => 0x364 case 2 => 0x368 case 3 => 0x370
    case 4 => 0x362 case 5 => 0x366 case 6 => 0x36a case _ => 0x371
  }

  /** The counter behind a counter register, 8 if there is none. */
  function CounterIndex(a: nat): nat {
    match a
    case 0x300 => 0 case 0x304 => 1 case 0x308 => 2 case 0x310 => 3
    case 0x302 => 4 case 0x306 => 5 case 0x30a => 6 case 0x311 => 7
    case _ => 8
  }

  /** The counter behind a CCCR, 8 if there is none. */
  function CccrIndex(a: nat): nat {
    match a
    case 0x360 => 0 case 0x364 => 1 case 0x368 => 2 case 0x370 => 3
    case 0x362 => 4 case 0x366 => 5 case 0x36a => 6 case 0x371 => 7
    case _ => 8
  }

  function UnusedCccr(i: nat): nat
    requires i < 10
  {
    match i
    case 0 => 0x361 case 1 => 0x363 case 2 => 0x365 case 3 => 0x367
    case 4 => 0x369 case 5 => 0x36b case 6 => 0x36c case 7 => 0x36d
    case 8 => 0x36e case _ => 0x36f
  }

  function UnusedIndex(a: nat): nat {
    match a
    case 0x361 => 0 case 0x363 => 1 case 0x365 => 2 case 0x367 => 3
    case 0x369 => 4 case 0x36b => 5 case 0x36c => 6 case 0x36d => 7
    case 0x36e => 8 case 0x36f => 9 case _ => 10
  }

  const BPU := 0
  const MS := 1
  const FLAME := 2
  const IQ := 3

  predicate Within(escr: nat, lo: nat, hi: nat) {
    lo <= escr <= hi
  }

  /** The counter that an ESCR serves, whatever the event. */
  function Owner(escr: nat): (k: nat)
    ensures k < 8
  {
    var group :=
      if Within(escr, 0x3a0, 0x3a3) || Within(escr, 0x3aa, 0x3ad) || Within(escr, 0x3b2, 0x3b7) then BPU
      else if Within(escr, 0x3c0, 0x3c5) then MS
      else if Within(escr, 0x3a4, 0x3af) then FLAME
      else IQ;
    if escr % 2 == 0 then group else group + 4
  }

  /** An ESCR of counter k: its own, in its own half of the pairs, and not an IQ_ESCR. */
  predicate Serves(escr: nat, k: nat) {
    && Owner(escr) == k && escr % 2 == k / 4
    && (BSU_ESCR0 <= escr < IQ_ESCR0 || RAT_ESCR0 <= escr < SSU_ESCR0 || MS_ESCR0 <= escr <= TC_ESCR1
        || IX_ESCR0 <= escr <= CRU_ESCR3)
  }

  /** A binding names a counter and an ESCR that serves it. */
  predicate Sound(b: Binding) {
    b == NULL || (b.counter == Some(Owner(b.escr)) && Serves(b.escr, Owner(b.escr)))
  }

  function Pair(escrSelect: bv32, eventSelect: bv32, k: nat, escr: nat): (e: Event)
    requires k < 4 && Serves(escr, k) && Serves(escr + 1, k + 4)
    ensures Sound(e.first) && Sound(e.second)
  {
    Event(escrSelect, eventSelect, Binding(Some(k), escr), Binding(Some(k + 4), escr + 1))
  }

  predicate SoundTable(events: seq<Event>) {
    forall i :: 0 <= i < |events| ==> Sound(events[i].first) && Sound(events[i].second)
  }

  function Events1To8(): (events: seq<Event>)
    ensures SoundTable(events) && |events| == 8
  {
    [
      Pair(0x05, 0x06, IQ, 0x3cc),
      Pair(0x04, 0x03, IQ, 0x3b8),
      Pair(0x01, 0x01, MS, 0x3c4),
      Pair(0x00, 0x03, BPU, 0x3b2),
      Pair(0x03, 0x18, BPU, 0x3b6),
      Pair(0x05, 0x02, FLAME, 0x3a8),
      Pair(0x02, 0x08, FLAME, 0x3ae),
      Pair(0x02, 0x04, FLAME, 0x3ae)
    ]
  }

  function Events9To16(): (events: seq<Event>)
    ensures SoundTable(events) && |events| == 8
  {
    [
      Pair(0x02, 0x05, FLAME, 0x3ae),
      Pair(0x02, 0x03, BPU, 0x3aa),
      Pair(0x04, 0x01, BPU, 0x3ac),
      Pair(0x07, 0x0c, BPU, 0x3a0),
      Event(0x06, 0x03, Binding(Some(0), 0x3a2), NULL),
      Event(0x06, 0x1a, Binding(Some(4), 0x3a3), NULL),
      Pair(0x06, 0x17, BPU, 0x3a2),
      Event(0x07, 0x05, Binding(Some(0), 0x3a0), NULL)
    ]
  }

  function Events17To24(): (events: seq<Event>)
    ensures SoundTable(events) && |events| == 8
  {
    [
      Event(0x07, 0x06, Binding(Some(4), 0x3a1), NULL),
      Pair(0x05, 0x03, IQ, 0x3cc),
      Pair(0x01, 0x34, FLAME, 0x3a4),
      Pair(0x01, 0x08, FLAME, 0x3a4),
      Pair(0x01, 0x0c, FLAME, 0x3a4),
      Pair(0x01, 0x0a, FLAME, 0x3a4),
      Pair(0x01, 0x0e, FLAME, 0x3a4),
      Pair(0x01, 0x02, FLAME, 0x3a4)
    ]
  }

  function Events25To32(): (events: seq<Event>)
    ensures SoundTable(events) && |events| == 8
  {
    [
      Pair(0x01, 0x1a, FLAME, 0x3a4),
      Pair(0x01, 0x04, FLAME, 0x3a4),
      Pair(0x01, 0x2e, FLAME, 0x3a4),
      Pair(0x05, 0x02, IQ, 0x3cc),
      Pair(0x06, 0x13, BPU, 0x3a2),
      Pair(0x00, 0x05, MS, 0x3c0),
      Pair(0x00, 0x09, MS, 0x3c0),
      Pair(0x05, 0x08, IQ, 0x3cc)
    ]
  }

  function Events33To39(): (events: seq<Event>)
    ensures SoundTable(events) && |events| == 7
  {
    [
      Pair(0x05, 0x0c, IQ, 0x3cc),
      Pair(0x05, 0x09, IQ, 0x3cc),
      Pair(0x04, 0x02, IQ, 0x3b8),
      Pair(0x04, 0x01, IQ, 0x3b8),
      Pair(0x02, 0x02, IQ, 0x3bc),
      Pair(0x02, 0x05, MS, 0x3c2),
      Pair(0x02, 0x04, MS, 0x3c2)
    ]
  }

  /** p4_events: event code n is entry n - 1. Most events may run on either of two counters,
    * with the two halves of a pair of ESCRs. */
  function P4Events(): (events: seq<Event>)
    ensures SoundTable(events) && |events| == NUM_EVENTS
  {
    Events1To8() + Events9To16() + Events17To24() + Events25To32() + Events33To39()
  }

  /** The table by number, in the order of the event codes: escr_select, event_select, and for
    * each binding the counter and the ESCR. */
  lemma Events1To8ByNumber()
    ensures var events := Events1To8();
            && events[0] == Event(0x05, 0x06, Binding(Some(3), 0x3cc), Binding(Some(7), 0x3cd))
            && events[1] == Event(0x04, 0x03, Binding(Some(3), 0x3b8), Binding(Some(7), 0x3b9))
            && events[2] == Event(0x01, 0x01, Binding(Some(1), 0x3c4), Binding(Some(5), 0x3c5))
            && events[3] == Event(0x00, 0x03, Binding(Some(0), 0x3b2), Binding(Some(4), 0x3b3))
            && events[4] == Event(0x03, 0x18, Binding(Some(0), 0x3b6), Binding(Some(4), 0x3b7))
            && events[5] == Event(0x05, 0x02, Binding(Some(2), 0x3a8), Binding(Some(6), 0x3a9))
            && events[6] == Event(0x02, 0x08, Binding(Some(2), 0x3ae), Binding(Some(6), 0x3af))
            && events[7] == Event(0x02, 0x04, Binding(Some(2), 0x3ae), Binding(Some(6), 0x3af))
  {
  }

  lemma Events9To16ByNumber()
    ensures var events := Events9To16();
            && events[0] == Event(0x02, 0x05, Binding(Some(2), 0x3ae), Binding(Some(6), 0x3af))
            && events[1] == Event(0x02, 0x03, Binding(Some(0), 0x3aa), Binding(Some(4), 0x3ab))
            && events[2] == Event(0x04, 0x01, Binding(Some(0), 0x3ac), Binding(Some(4), 0x3ad))
            && events[3] == Event(0x07, 0x0c, Binding(Some(0), 0x3a0), Binding(Some(4), 0x3a1))
            && events[4] == Event(0x06, 0x03, Binding(Some(0), 0x3a2), NULL)
            && events[5] == Event(0x06, 0x1a, Binding(Some(4), 0x3a3), NULL)
            && events[6] == Event(0x06, 0x17, Binding(Some(0), 0x3a2), Binding(Some(4), 0x3a3))
            && events[7] == Event(0x07, 0x05, Binding(Some(0), 0x3a0), NULL)
  {
  }

  lemma Events17To24ByNumber()
    ensures var events := Events17To24();
            && events[0] == Event(0x07, 0x06, Binding(Some(4), 0x3a1), NULL)
            && events[1] == Event(0x05, 0x03, Binding(Some(3), 0x3cc), Binding(Some(7), 0x3cd))
            && events[2] == Event(0x01, 0x34, Binding(Some(2), 0x3a4), Binding(Some(6), 0x3a5))
            && events[3] == Event(0x01, 0x08, Binding(Some(2), 0x3a4), Binding(Some(6), 0x3a5))
            && events[4] == Event(0x01, 0x0c, Binding(Some(2), 0x3a4), Binding(Some(6), 0x3a5))
            && events[5] == Event(0x01, 0x0a, Binding(Some(2), 0x3a4), Binding(Some(6), 0x3a5))
            && events[6] == Event(0x01, 0x0e, Binding(Some(2), 0x3a4), Binding(Some(6), 0x3a5))
            && events[7] == Event(0x01, 0x02, Binding(Some(2), 0x3a4), Binding(Some(6), 0x3a5))
  {
  }

  lemma Events25To32ByNumber()
    ensures var events := Events25To32();
            && events[0] == Event(0x01, 0x1a, Binding(Some(2), 0x3a4), Binding(Some(6), 0x3a5))
            && events[1] == Event(0x01, 0x04, Binding(Some(2), 0x3a4), Binding(Some(6), 0x3a5))
            && events[2] == Event(0x01, 0x2e, Binding(Some(2), 0x3a4), Binding(Some(6), 0x3a5))
            && events[3] == Event(0x05, 0x02, Binding(Some(3), 0x3cc), Binding(Some(7), 0x3cd))
            && events[4] == Event(0x06, 0x13, Binding(Some(0), 0x3a2), Binding(Some(4), 0x3a3))
            && events[5] == Event(0x00, 0x05, Binding(Some(1), 0x3c0), Binding(Some(5), 0x3c1))
            && events[6] == Event(0x00, 0x09, Binding(Some(1), 0x3c0), Binding(Some(5), 0x3c1))
            && events[7] == Event(0x05, 0x08, Binding(Some(3), 0x3cc), Binding(Some(7), 0x3cd))
  {
  }

  lemma Events33To39ByNumber()
    ensures var events := Events33To39();
            && events[0] == Event(0x05, 0x0c, Binding(Some(3), 0x3cc), Binding(Some(7), 0x3cd))
            && events[1] == Event(0x05, 0x09, Binding(Some(3), 0x3cc), Binding(Some(7), 0x3cd))
            && events[2] == Event(0x04, 0x02, Binding(Some(3), 0x3b8), Binding(Some(7), 0x3b9))
            && events[3] == Event(0x04, 0x01, Binding(Some(3), 0x3b8), Binding(Some(7), 0x3b9))
            && events[4] == Event(0x02, 0x02, Binding(Some(3), 0x3bc), Binding(Some(7), 0x3bd))
            && events[5] == Event(0x02, 0x05, Binding(Some(1), 0x3c2), Binding(Some(5), 0x3c3))
            && events[6] == Event(0x02, 0x04, Binding(Some(1), 0x3c2), Binding(Some(5), 0x3c3))
  {
  }

  /** The pieces, one after the other. */
  lemma P4EventsInOrder()
    ensures P4Events()[..8] == Events1To8() && P4Events()[8..16] == Events9To16()
    ensures P4Events()[16..24] == Events17To24() && P4Events()[24..32] == Events25To32()
    ensures P4Events()[32..] == Events33To39()
  {
  }

  /** The counters' own registers, and the CCCRs that belong to none, by number. */
  lemma AddressesByNumber()
    ensures CounterAddress(0) == 0x300 && CccrAddress(0) == 0x360
    ensures CounterAddress(1) == 0x304 && CccrAddress(1) == 0x364
    ensures CounterAddress(2) == 0x308 && CccrAddress(2) == 0x368
    ensures CounterAddress(3) == 0x310 && CccrAddress(3) == 0x370
    ensures CounterAddress(4) == 0x302 && CccrAddress(4) == 0x362
    ensures CounterAddress(5) == 0x306 && CccrAddress(5) == 0x366
    ensures CounterAddress(6) == 0x30a && CccrAddress(6) == 0x36a
    ensures CounterAddress(7) == 0x311 && CccrAddress(7) == 0x371
    ensures seq(10, i requires 0 <= i < 10 => UnusedCccr(i))
         == [0x361, 0x363, 0x365, 0x367, 0x369, 0x36b, 0x36c, 0x36d, 0x36e, 0x36f]
  {
  }

  function EscrFor(e: Event, k: nat): Option<nat>
    requires k < 8
  {
    if e.first.counter == Some(k) then Some(e.first.escr)
    else if e.second.counter == Some(k) then Some(e.second.escr)
    else None
  }

  /** The ESCR through which counter `k` counts event `code`, if there is one. */
  function Bound(events: seq<Event>, code: nat, k: nat): Option<nat>
    requires k < 8
  {
    if code == 0 || code > |events| then None else EscrFor(events[code - 1], k)
  }

  /** No ESCR serves two counters, and a counter's ESCRs lie in its own half of the pairs. */
  lemma BoundIsOwned(events: seq<Event>, code: nat, k: nat)
    requires SoundTable(events)
    requires k < 8 && Bound(events, code, k).Some?
    ensures Serves(Bound(events, code, k).value, k)
  {
  }

  // ---- the registers a thread saves ----

  /** The addresses from `lo` to `hi`, `step` apart. */
  function Range(lo: nat, hi: nat, step: nat): (r: seq<nat>)
    requires step == 1 || step == 2
    ensures |r| == if lo > hi then 0 else if step == 1 then hi - lo + 1 else (hi - lo) / 2 + 1
    decreases hi + 1 - lo
  {
    if lo > hi then [] else [lo] + Range(lo + step, hi, step)
  }

  predicate InRange(lo: nat, hi: nat, step: nat, a: nat)
    requires step == 1 || step == 2
  {
    lo <= a <= hi && (step == 1 || (a - lo) % 2 == 0)
  }

  function Counters(chip: Chip, stag: nat): seq<nat>
    requires Thread(chip, stag)
  {
    seq(NumCounters(chip), i requires 0 <= i < NumCounters(chip) => CounterAddress(Virtual(chip, stag, i)))
  }

  function Stray(chip: Chip, stag: nat): seq<nat> {
    if !chip.siblings then [CRU_ESCR5, CRU_ESCR4] else if stag == 0 then [CRU_ESCR4] else [CRU_ESCR5, CRU_ESCR5]
  }

  /** The CCCRs and the ESCRs up to the IQ_ESCRs, in whose place later models have the
    * BSU_ESCRs a second time. */
  function LowControls(chip: Chip, stag: nat): (r: seq<nat>)
    requires Thread(chip, stag)
    ensures |r| == if chip.siblings then 23 else 46
  {
    var step := Increment(chip);
    var twin := if chip.model >= 3 then BSU_ESCR0 else IQ_ESCR0;
    Range(BPU_CCCR0 + stag, IQ_CCCR5, step) + Range(BSU_ESCR0 + stag, IQ_ESCR0 - 1, step)
    + Range(twin + stag, twin + 1, step)
  }

  function HighControls(chip: Chip, stag: nat): (r: seq<nat>)
    requires Thread(chip, stag)
    ensures |r| == if !chip.siblings then 15 else if stag == 0 then 8 else 7
  {
    var step := Increment(chip);
    Range(RAT_ESCR0 + stag, SSU_ESCR0, step) + Range(MS_ESCR0 + stag, TC_ESCR1, step)
    + Range(IX_ESCR0 + stag, CRU_ESCR3, step)
  }

  function Controls(chip: Chip, stag: nat): (r: seq<nat>)
    requires Thread(chip, stag)
    ensures |r| == NumControls(chip)
  {
    LowControls(chip, stag) + HighControls(chip, stag) + Stray(chip, stag)
  }

  /** The first slots name the addresses `addrs`. */
  predicate Named(slots: seq<Slot>, addrs: seq<nat>) {
    |addrs| <= |slots| && forall i :: 0 <= i < |addrs| ==> slots[i].addr == addrs[i]
  }

  method FillRange(controls: array<Slot>, from: nat, lo: nat, hi: nat, step: nat, ghost done: seq<nat>)
    returns (i: nat)
    requires (step == 1 || step == 2) && from == |done| && Named(controls[..], done)
    requires from + |Range(lo, hi, step)| <= controls.Length
    modifies controls
    ensures i == |done + Range(lo, hi, step)| && Named(controls[..], done + Range(lo, hi, step))
  {
    i := from;
    var addr := lo;
    ghost var filled: seq<nat> := done;
    while addr <= hi
      invariant i == |filled| && filled + Range(addr, hi, step) == done + Range(lo, hi, step)
      invariant Named(controls[..], filled)
      decreases hi + 1 - addr
    {
      assert filled + Range(addr, hi, step) == (filled + [addr]) + Range(addr + step, hi, step);
      controls[i] := controls[i].(addr := addr);
      i, filled, addr := i + 1, filled + [addr], addr + step;
    }
  }

  method FillLowControls(chip: Chip, stag: nat, controls: array<Slot>) returns (i: nat)
    requires Thread(chip, stag) && controls.Length == NumControls(chip)
    modifies controls
    ensures i == |LowControls(chip, stag)| && Named(controls[..], LowControls(chip, stag))
  {
    var step := Increment(chip);
    i := FillRange(controls, 0, BPU_CCCR0 + stag, IQ_CCCR5, step, []);
    ghost var done := Range(BPU_CCCR0 + stag, IQ_CCCR5, step);
    assert [] + done == done;
    i := FillRange(controls, i, BSU_ESCR0 + stag, IQ_ESCR0 - 1, step, done);
    done := done + Range(BSU_ESCR0 + stag, IQ_ESCR0 - 1, step);
    if chip.model >= 3 {
      i := FillRange(controls, i, BSU_ESCR0 + stag, BSU_ESCR1, step, done);
    } else {
      i := FillRange(controls, i, IQ_ESCR0 + stag, IQ_ESCR1, step, done);
    }
  }

  method FillHighControls(chip: Chip, stag: nat, controls: array<Slot>, from: nat, ghost done: seq<nat>)
    returns (i: nat)
    requires Thread(chip, stag) && from == |done| && Named(controls[..], done)
    requires from + |HighControls(chip, stag)| <= controls.Length
    modifies controls
    ensures i == |done + HighControls(chip, stag)| && Named(controls[..], done + HighControls(chip, stag))
  {
    var step := Increment(chip);
    ghost var rat := Range(RAT_ESCR0 + stag, SSU_ESCR0, step);
    ghost var ms := Range(MS_ESCR0 + stag, TC_ESCR1, step);
    ghost var ix := Range(IX_ESCR0 + stag, CRU_ESCR3, step);
    AssocFour(done, rat, ms, ix);
    i := FillRange(controls, from, RAT_ESCR0 + stag, SSU_ESCR0, step, done);
    i := FillRange(controls, i, MS_ESCR0 + stag, TC_ESCR1, step, done + rat);
    i := FillRange(controls, i, IX_ESCR0 + stag, CRU_ESCR3, step, done + rat + ms);
  }

  /** p4_fill_in_addresses: every slot of either kind of CPU is given an address, and none
    * past the last. */
  method FillInAddresses(chip: Chip, stag: nat, counters: array<Slot>, controls: array<Slot>)
    requires Thread(chip, stag) && counters != controls
    requires counters.Length == NumCounters(chip) && controls.Length == NumControls(chip)
    modifies counters, controls
    ensures Named(counters[..], Counters(chip, stag)) && |Counters(chip, stag)| == counters.Length
    ensures Named(controls[..], Controls(chip, stag)) && |Controls(chip, stag)| == controls.Length
  {
    for i := 0 to NumCounters(chip)
      invariant forall j :: 0 <= j < i ==> counters[j].addr == Counters(chip, stag)[j]
    {
      counters[i] := counters[i].(addr := CounterAddress(Virtual(chip, stag, i)));
    }
    var i := FillLowControls(chip, stag, controls);
    i := FillHighControls(chip, stag, controls, i, LowControls(chip, stag));
    if !chip.siblings {
      controls[i] := controls[i].(addr := CRU_ESCR5);
      controls[i + 1] := controls[i + 1].(addr := CRU_ESCR4);
    } else if stag == 0 {
      controls[i] := controls[i].(addr := CRU_ESCR4);
    } else {
      controls[i] := controls[i].(addr := CRU_ESCR5);
      controls[i + 1] := controls[i + 1].(addr := CRU_ESCR5);
    }
  }

  // ---- the registers a thread writes ----

  /** The first `n` counters of a thread. */
  predicate Own(chip: Chip, stag: nat, n: nat, k: nat) {
    NumCounters(chip) * stag <= k < NumCounters(chip) * stag + n
  }

  predicate IsCounter(chip: Chip, stag: nat, a: nat) {
    Own(chip, stag, NumCounters(chip), CounterIndex(a))
  }

  /** The unused CCCRs of a thread, below the m-th. */
  predicate Unused(chip: Chip, stag: nat, m: nat, i: nat) {
    i < m && i < 10 && Shared(chip, stag, i)
  }

  /** The unused CCCRs are dealt out alternately. */
  predicate Shared(chip: Chip, stag: nat, i: nat) {
    !chip.siblings || i % 2 == stag
  }

  predicate IsCccr(chip: Chip, stag: nat, a: nat) {
    Own(chip, stag, NumCounters(chip), CccrIndex(a)) || Unused(chip, stag, 10, UnusedIndex(a))
  }

  /** The ESCRs that setup clears. On older models each thread clears both IQ_ESCRs. */
  predicate Cleared(chip: Chip, stag: nat, a: nat)
    requires Thread(chip, stag)
  {
    ClearedLow(chip, stag, a) || ClearedHigh(chip, stag, a) || a in Stray(chip, stag)
  }

  predicate ClearedLow(chip: Chip, stag: nat, a: nat) {
    || InRange(BSU_ESCR0 + stag, IQ_ESCR0 - 1, Increment(chip), a)
    || (chip.model < 3 && (a == IQ_ESCR0 || a == IQ_ESCR1))
  }

  predicate ClearedHigh(chip: Chip, stag: nat, a: nat) {
    || InRange(RAT_ESCR0 + stag, SSU_ESCR0, Increment(chip), a)
    || InRange(MS_ESCR0 + stag, TC_ESCR1, Increment(chip), a)
    || InRange(IX_ESCR0 + stag, CRU_ESCR3, Increment(chip), a)
  }

  predicate Written(chip: Chip, stag: nat, a: nat)
    requires Thread(chip, stag)
  {
    IsCounter(chip, stag, a) || IsCccr(chip, stag, a) || Cleared(chip, stag, a)
  }

  // ---- setup ----

  predicate Known(chip: Chip, a: nat) {
    a == MISC_ENABLE || 0x300 <= a <= 0x311 || BPU_CCCR0 <= a <= IQ_CCCR5 || Cleared(Chip(false, chip.model), 0, a)
  }

  /** The registers of the chip. */
  ghost predicate Equipped(chip: Chip, file: File) {
    forall a: nat :: Known(chip, a) ==> a in file
  }

  function ClearCccr(low: bv32): bv32 {
    (low & 0x38030fff) | 0x00030000
  }

  function CccrValue(stag: nat, low: bv32, e: Event): bv32 {
    ClearCccr(low) | ((e.escrSelect & 0x07) << 13) | (if stag == 0 then 0x0400_0000 else 0x0800_0000)
  }

  function EscrBits(modes: bv32, select: bv32, mask: bv32): bv32 {
    modes | ((select & 0x3f) << 25) | ((mask & 0xffff) << 9)
  }

  function EscrModes(stag: nat, user: bv32, kernel: bv32): bv32 {
    if stag == 0 then ((user & 1) << 2) | ((kernel & 1) << 3) else (user & 1) | ((kernel & 1) << 1)
  }

  function EscrValue(stag: nat, c: Config, e: Event): bv32 {
    EscrBits(EscrModes(stag, c.user, c.kernel), e.eventSelect, c.unitMask)
  }

  /** The fields of an ESCR do not overlap: each reads back what was put in. */
  lemma EscrFields(modes: bv32, select: bv32, mask: bv32)
    requires modes <= 15
    ensures EscrBits(modes, select, mask) & 15 == modes
    ensures (EscrBits(modes, select, mask) >> 9) & 0xffff == mask & 0xffff
    ensures (EscrBits(modes, select, mask) >> 25) & 0x3f == select & 0x3f
  {
  }

  /** Each thread has two mode bits of its own. */
  lemma EscrModeBits(stag: nat, user: bv32, kernel: bv32)
    ensures var modes := EscrModes(stag, user, kernel);
            && modes <= 15
            && (stag == 0 ==> (modes >> 2) & 1 == user & 1 && (modes >> 3) & 1 == kernel & 1 && modes & 3 == 0)
            && (stag != 0 ==> modes & 1 == user & 1 && (modes >> 1) & 1 == kernel & 1 && modes & 12 == 0)
  {
  }

  /** An ESCR set for an event, by number: its mode bits, mask and select, and no other bit. */
  predicate EscrReads(low: bv32, stag: nat, c: Config, e: Event) {
    && (low >> 25) & 0x3f == e.eventSelect & 0x3f
    && (low >> 9) & 0xffff == c.unitMask & 0xffff
    && (if stag == 0
        then (low >> 2) & 1 == c.user & 1 && (low >> 3) & 1 == c.kernel & 1 && low & 3 == 0
        else low & 1 == c.user & 1 && (low >> 1) & 1 == c.kernel & 1 && low & 12 == 0)
    && low & 0x8000_01f0 == 0
  }

  /** A CCCR set for an event that was `was` before, by number: the select of the event's
    * ESCRs, the overflow interrupt of its own thread, the two required bits, the reserved bits
    * as they were, and no other, so that it is not enabled yet. */
  predicate CccrReads(low: bv32, was: bv32, stag: nat, e: Event) {
    && (low >> 13) & 7 == e.escrSelect & 7
    && (low & 0x0400_0000 != 0 <==> stag == 0)
    && (low & 0x0800_0000 != 0 <==> stag != 0 || was & 0x0800_0000 != 0)
    && low & 0x0003_0000 == 0x0003_0000
    && low & 0x3000_0fff == was & 0x3000_0fff
    && low & 0xc3fc_1000 == 0
  }

  /** A CCCR that is cleared keeps its reserved bits and has the two required ones. */
  predicate CccrIsClear(low: bv32, was: bv32) {
    && low & 0x0003_0000 == 0x0003_0000
    && low & 0x3800_0fff == was & 0x3800_0fff
    && low & 0xc7fc_f000 == 0
  }

  lemma EscrValueReads(stag: nat, c: Config, e: Event)
    ensures EscrReads(EscrValue(stag, c, e), stag, c, e)
  {
    if stag == 0 {
      FirstThreadReads(c.user, c.kernel, e.eventSelect, c.unitMask);
    } else {
      SecondThreadReads(c.user, c.kernel, e.eventSelect, c.unitMask);
    }
  }

  lemma FirstThreadReads(user: bv32, kernel: bv32, select: bv32, mask: bv32)
    ensures var low := EscrBits(EscrModes(0, user, kernel), select, mask);
            && (low >> 25) & 0x3f == select & 0x3f && (low >> 9) & 0xffff == mask & 0xffff
            && (low >> 2) & 1 == user & 1 && (low >> 3) & 1 == kernel & 1 && low & 3 == 0 && low & 0x8000_01f0 == 0
  {
  }

  lemma SecondThreadReads(user: bv32, kernel: bv32, select: bv32, mask: bv32)
    ensures var low := EscrBits(EscrModes(1, user, kernel), select, mask);
            && (low >> 25) & 0x3f == select & 0x3f && (low >> 9) & 0xffff == mask & 0xffff
            && low & 1 == user & 1 && (low >> 1) & 1 == kernel & 1 && low & 12 == 0 && low & 0x8000_01f0 == 0
  {
  }

  lemma CccrValueReads(stag: nat, was: bv32, e: Event)
    ensures CccrReads(CccrValue(stag, was, e), was, stag, e)
  {
  }

  lemma CccrClearReads(was: bv32)
    ensures CccrIsClear(ClearCccr(was), was)
  {
  }

  method ClearEscrs(chip: Chip, regs: Registers, lo: nat, hi: nat)
    requires forall a: nat :: InRange(lo, hi, Increment(chip), a) ==> a in regs.file
    modifies regs
    ensures regs.file.Keys == old(regs.file).Keys
    ensures forall a :: a in regs.file ==>
      regs.file[a] == if InRange(lo, hi, Increment(chip), a) then ZERO else old(regs.file)[a]
  {
    var addr, step := lo, Increment(chip);
    while addr <= hi
      invariant addr >= lo && (step == 1 || (addr - lo) % 2 == 0)
      invariant regs.file.Keys == old(regs.file).Keys
      invariant forall a :: a in regs.file ==>
        regs.file[a] == if InRange(lo, hi, step, a) && a < addr then ZERO else old(regs.file)[a]
      decreases hi + 1 - addr
    {
      assert InRange(lo, hi, step, addr);
      regs.Wrmsr(addr, ZERO);
      addr := addr + step;
    }
  }

  function CccrCleared(v: Value): Value {
    Value(ClearCccr(v.low), v.high)
  }

  lemma CccrAt(k: nat, a: nat)
    requires k < 8
    ensures CccrIndex(a) == k <==> a == CccrAddress(k)
  {
  }

  lemma UnusedAt(i: nat, a: nat)
    requires i < 10
    ensures UnusedIndex(a) == i <==> a == UnusedCccr(i)
  {
  }

  method ClearUsedCccrs(chip: Chip, stag: nat, regs: Registers)
    requires Thread(chip, stag) && Equipped(chip, regs.file)
    modifies regs
    ensures regs.file.Keys == old(regs.file).Keys
    ensures forall a :: a in regs.file ==>
      regs.file[a]
      == if Own(chip, stag, NumCounters(chip), CccrIndex(a)) then CccrCleared(old(regs.file)[a]) else old(regs.file)[a]
  {
    for i := 0 to NumCounters(chip)
      invariant regs.file.Keys == old(regs.file).Keys
      invariant forall a :: a in regs.file ==>
        regs.file[a] == if Own(chip, stag, i, CccrIndex(a)) then CccrCleared(old(regs.file)[a]) else old(regs.file)[a]
    {
      var k := Virtual(chip, stag, i);
      forall a: nat
        ensures CccrIndex(a) == k <==> a == CccrAddress(k)
      {
        CccrAt(k, a);
      }
      var v := regs.Rdmsr(CccrAddress(k));
      regs.Wrmsr(CccrAddress(k), CccrCleared(v));
    }
  }

  lemma UnusedStep(chip: Chip, stag: nat, i: nat, a: nat)
    requires Thread(chip, stag) && i < 10 && Shared(chip, stag, i)
    ensures Shared(chip, stag, i + Increment(chip))
    ensures Unused(chip, stag, i + Increment(chip), UnusedIndex(a)) <==>
            Unused(chip, stag, i, UnusedIndex(a)) || a == UnusedCccr(i)
    ensures !Unused(chip, stag, i, UnusedIndex(UnusedCccr(i)))
  {
    UnusedAt(i, a);
  }

  method ClearUnusedCccrs(chip: Chip, stag: nat, regs: Registers)
    requires Thread(chip, stag) && Equipped(chip, regs.file)
    modifies regs
    ensures regs.file.Keys == old(regs.file).Keys
    ensures forall a :: a in regs.file ==>
      regs.file[a]
      == if Unused(chip, stag, 10, UnusedIndex(a)) then CccrCleared(old(regs.file)[a]) else old(regs.file)[a]
  {
    var i := stag;
    while i < 10
      invariant stag <= i && Shared(chip, stag, i)
      invariant regs.file.Keys == old(regs.file).Keys
      invariant forall a :: a in regs.file ==>
        regs.file[a]
        == if Unused(chip, stag, i, UnusedIndex(a)) then CccrCleared(old(regs.file)[a]) else old(regs.file)[a]
    {
      var addr, next := UnusedCccr(i), i + Increment(chip);
      forall a: nat
        ensures Unused(chip, stag, next, UnusedIndex(a)) <==> Unused(chip, stag, i, UnusedIndex(a)) || a == addr
        ensures !Unused(chip, stag, i, UnusedIndex(addr)) && Shared(chip, stag, next)
      {
        UnusedStep(chip, stag, i, a);
      }
      assert Known(chip, addr);
      var v := regs.Rdmsr(addr);
      regs.Wrmsr(addr, CccrCleared(v));
      i := next;
    }
  }

  method ClearLowEscrs(chip: Chip, stag: nat, regs: Registers)
    requires Thread(chip, stag)
    requires forall a: nat :: ClearedLow(chip, stag, a) ==> a in regs.file
    modifies regs
    ensures regs.file.Keys == old(regs.file).Keys
    ensures forall a :: a in regs.file ==>
      regs.file[a] == if ClearedLow(chip, stag, a) then ZERO else old(regs.file)[a]
  {
    ClearEscrs(chip, regs, BSU_ESCR0 + stag, IQ_ESCR0 - 1);
    if chip.model < 3 {
      regs.Wrmsr(IQ_ESCR0, ZERO);
      regs.Wrmsr(IQ_ESCR1, ZERO);
    }
  }

  method ClearHighEscrs(chip: Chip, stag: nat, regs: Registers)
    requires Thread(chip, stag)
    requires forall a: nat :: ClearedHigh(chip, stag, a) ==> a in regs.file
    modifies regs
    ensures regs.file.Keys == old(regs.file).Keys
    ensures forall a :: a in regs.file ==>
      regs.file[a] == if ClearedHigh(chip, stag, a) then ZERO else old(regs.file)[a]
  {
    ClearEscrs(chip, regs, RAT_ESCR0 + stag, SSU_ESCR0);
    ClearEscrs(chip, regs, MS_ESCR0 + stag, TC_ESCR1);
    ClearEscrs(chip, regs, IX_ESCR0 + stag, CRU_ESCR3);
  }

  lemma ClearedIsKnown(chip: Chip, stag: nat, a: nat)
    requires Thread(chip, stag) && Cleared(chip, stag, a)
    ensures Known(chip, a)
  {
  }

  method ClearAllEscrs(chip: Chip, stag: nat, regs: Registers)
    requires Thread(chip, stag) && Equipped(chip, regs.file)
    modifies regs
    ensures regs.file.Keys == old(regs.file).Keys
    ensures forall a :: a in regs.file ==>
      regs.file[a] == if Cleared(chip, stag, a) then ZERO else old(regs.file)[a]
  {
    forall a: nat | Cleared(chip, stag, a)
      ensures a in regs.file
    {
      ClearedIsKnown(chip, stag, a);
    }
    ClearLowEscrs(chip, stag, regs);
    ClearHighEscrs(chip, stag, regs);
    ClearStray(chip, stag, regs);
  }

  method ClearStray(chip: Chip, stag: nat, regs: Registers)
    requires Thread(chip, stag) && CRU_ESCR4 in regs.file && CRU_ESCR5 in regs.file
    modifies regs
    ensures regs.file.Keys == old(regs.file).Keys
    ensures forall a :: a in regs.file ==> regs.file[a] == if a in Stray(chip, stag) then ZERO else old(regs.file)[a]
  {
    if !chip.siblings || stag == 0 {
      regs.Wrmsr(CRU_ESCR4, ZERO);
    }
    if !chip.siblings || stag == 1 {
      regs.Wrmsr(CRU_ESCR5, ZERO);
    }
  }

  function EscrSet(stag: nat, c: Config, e: Event, was: Value): Value {
    Value((was.low & 0x8000_0003) | EscrValue(stag, c, e), was.high)
  }

  function CccrSet(stag: nat, e: Event, was: Value): Value {
    Value(CccrValue(stag, was.low, e), was.high)
  }

  lemma BoundIsKnown(events: seq<Event>, chip: Chip, code: nat, k: nat)
    requires SoundTable(events)
    requires k < 8 && Bound(events, code, k).Some?
    ensures Known(chip, Bound(events, code, k).value) && Known(chip, CccrAddress(k))
    ensures CccrAddress(k) != Bound(events, code, k).value
  {
    BoundIsOwned(events, code, k);
  }

  /** What programming counter `k` with a bound event makes of register `a`. */
  function OneSet(events: seq<Event>, stag: nat, c: Config, k: nat, a: nat, was: Value): Value
    requires k < 8
  {
    match Bound(events, c.event, k)
    case None => was
    case Some(escr) =>
      if a == CccrAddress(k) then CccrSet(stag, events[c.event - 1], was)
      else if a == escr then EscrSet(stag, c, events[c.event - 1], was)
      else was
  }

  method ProgramCounter(events: seq<Event>, stag: nat, regs: Registers, k: nat, c: Config, escr: nat)
    requires k < 8 && Bound(events, c.event, k) == Some(escr)
    requires escr in regs.file && CccrAddress(k) in regs.file && CccrAddress(k) != escr
    modifies regs
    ensures regs.file.Keys == old(regs.file).Keys
    ensures forall a :: a in regs.file ==> regs.file[a] == OneSet(events, stag, c, k, a, old(regs.file)[a])
  {
    var v := regs.Rdmsr(escr);
    regs.Wrmsr(escr, EscrSet(stag, c, events[c.event - 1], v));
    v := regs.Rdmsr(CccrAddress(k));
    regs.Wrmsr(CccrAddress(k), CccrSet(stag, events[c.event - 1], v));
  }

  method FindBinding(e: Event, k: nat) returns (escr: Option<nat>)
    requires k < 8
    ensures escr == EscrFor(e, k)
  {
    var i := 0;
    while i < 2
      invariant i > 0 ==> e.first.counter != Some(k)
      invariant i > 1 ==> e.second.counter != Some(k)
    {
      var binding := if i == 0 then e.first else e.second;
      if binding.counter == Some(k) {
        return Some(binding.escr);
      }
      i := i + 1;
    }
    return None;
  }

  /** pmc_setup_one_p4_counter: a counter that cannot count its event is left alone. */
  method SetupOneCounter(events: seq<Event>, chip: Chip, stag: nat, regs: Registers, k: nat, c: Config)
    requires SoundTable(events)
    requires k < 8 && Equipped(chip, regs.file)
    modifies regs
    ensures regs.file.Keys == old(regs.file).Keys
    ensures forall a :: a in regs.file ==> regs.file[a] == OneSet(events, stag, c, k, a, old(regs.file)[a])
  {
    if c.event == 0 || c.event > |events| {
      return;
    }
    var escr := FindBinding(events[c.event - 1], k);
    if escr.Some? {
      BoundIsKnown(events, chip, c.event, k);
      ProgramCounter(events, stag, regs, k, c, escr.value);
    }
  }

  /** The counter that register `a` of a thread belongs to: 8 if to none. */
  function Behind(a: nat): nat {
    if 0x300 <= a <= 0x311 then CounterIndex(a) else if BPU_CCCR0 <= a <= IQ_CCCR5 then CccrIndex(a) else Owner(a)
  }

  /** What one counter's turn makes of register `a`. */
  function Turn(events: seq<Event>, stag: nat, c: Config, k: nat, a: nat, was: Value): Value
    requires k < 8
  {
    if !c.enabled then was
    else if a == CounterAddress(k) then Value(-c.count, 0xffff_ffff)
    else OneSet(events, stag, c, k, a, was)
  }

  lemma TurnIsLocal(events: seq<Event>, stag: nat, c: Config, k: nat, a: nat, was: Value)
    requires SoundTable(events)
    requires k < 8 && Behind(a) != k
    ensures Turn(events, stag, c, k, a, was) == was
  {
    if Bound(events, c.event, k).Some? {
      BoundIsOwned(events, c.event, k);
    }
  }

  /** What setup makes of register `a`, once it has cleared it to `was` and dealt with the
    * first `n` counters. */
  function Final(events: seq<Event>, chip: Chip, stag: nat, configs: seq<Config>, n: nat, a: nat, was: Value): Value
    requires Thread(chip, stag) && n <= NumCounters(chip) <= |configs|
  {
    var k := Behind(a);
    if Own(chip, stag, n, k) then Turn(events, stag, configs[k - NumCounters(chip) * stag], k, a, was) else was
  }

  lemma FinalStep(events: seq<Event>, chip: Chip, stag: nat, configs: seq<Config>, i: nat, a: nat, was: Value)
    requires SoundTable(events)
    requires Thread(chip, stag) && i < NumCounters(chip) <= |configs|
    ensures Final(events, chip, stag, configs, i + 1, a, was) ==
            Turn(events, stag, configs[i], Virtual(chip, stag, i), a, Final(events, chip, stag, configs, i, a, was))
  {
    var k := Virtual(chip, stag, i);
    if Behind(a) != k {
      TurnIsLocal(events, stag, configs[i], k, a, Final(events, chip, stag, configs, i, a, was));
    }
  }

  method SetupCounter(events: seq<Event>, chip: Chip, stag: nat, regs: Registers, k: nat, c: Config)
    requires SoundTable(events)
    requires k < 8 && Equipped(chip, regs.file) && c.enabled
    modifies regs
    ensures regs.file.Keys == old(regs.file).Keys
    ensures forall a :: a in regs.file ==> regs.file[a] == Turn(events, stag, c, k, a, old(regs.file)[a])
  {
    SetupOneCounter(events, chip, stag, regs, k, c);
    assert Known(chip, CounterAddress(k));
    regs.Wrmsr(CounterAddress(k), Value(-c.count, 0xffff_ffff));
  }

  method SetupCounters(events: seq<Event>, chip: Chip, stag: nat, regs: Registers, configs: seq<Config>,
                       reset: array<bv32>)
    requires SoundTable(events)
    requires Thread(chip, stag) && Equipped(chip, regs.file)
    requires NumCounters(chip) <= |configs| && NumCounters(chip) <= reset.Length
    modifies regs, reset
    ensures regs.file.Keys == old(regs.file).Keys
    ensures forall a :: a in regs.file ==>
      regs.file[a] == Final(events, chip, stag, configs, NumCounters(chip), a, old(regs.file)[a])
    ensures forall i :: 0 <= i < NumCounters(chip) ==> reset[i] == if configs[i].enabled then configs[i].count else 0
  {
    for i := 0 to NumCounters(chip)
      invariant regs.file.Keys == old(regs.file).Keys
      invariant forall a :: a in regs.file ==>
        regs.file[a] == Final(events, chip, stag, configs, i, a, old(regs.file)[a])
      invariant forall j :: 0 <= j < i ==> reset[j] == if configs[j].enabled then configs[j].count else 0
    {
      var k := Virtual(chip, stag, i);
      forall a | a in regs.file
        ensures Final(events, chip, stag, configs, i + 1, a, old(regs.file)[a])
             == Turn(events, stag, configs[i], k, a, regs.file[a])
      {
        FinalStep(events, chip, stag, configs, i, a, old(regs.file)[a]);
      }
      if configs[i].enabled {
        reset[i] := configs[i].count;
        SetupCounter(events, chip, stag, regs, k, configs[i]);
      } else {
        reset[i] := 0;
      }
    }
  }

  /** What setup makes of register `a` before it deals with the counters. */
  function Wiped(chip: Chip, stag: nat, a: nat, was: Value): Value
    requires Thread(chip, stag)
  {
    if Cleared(chip, stag, a) then ZERO else if IsCccr(chip, stag, a) then CccrCleared(was) else was
  }

  predicate PmcAvailable(file: File) {
    MISC_ENABLE in file && file[MISC_ENABLE].low & 0x80 != 0
  }

  /** Setup is done if and only if bit 7 of register 0x1a0 is set. */
  lemma PmcByNumber(file: File)
    ensures PmcAvailable(file) <==> 0x1a0 in file && (file[0x1a0].low >> 7) & 1 == 1
  {
  }

  lemma CccrsApart(chip: Chip, stag: nat, a: nat)
    requires Thread(chip, stag)
    ensures !(Own(chip, stag, NumCounters(chip), CccrIndex(a)) && Unused(chip, stag, 10, UnusedIndex(a)))
    ensures !(IsCccr(chip, stag, a) && Cleared(chip, stag, a))
  {
    assert IsCccr(chip, stag, a) ==> BPU_CCCR0 <= a <= IQ_CCCR5;
    assert Cleared(chip, stag, a) ==> BSU_ESCR0 <= a;
  }

  method Wipe(chip: Chip, stag: nat, regs: Registers)
    requires Thread(chip, stag) && Equipped(chip, regs.file)
    modifies regs
    ensures regs.file.Keys == old(regs.file).Keys
    ensures forall a :: a in regs.file ==> regs.file[a] == Wiped(chip, stag, a, old(regs.file)[a])
  {
    forall a: nat
      ensures !(Own(chip, stag, NumCounters(chip), CccrIndex(a)) && Unused(chip, stag, 10, UnusedIndex(a)))
      ensures !(IsCccr(chip, stag, a) && Cleared(chip, stag, a))
    {
      CccrsApart(chip, stag, a);
    }
    ClearUsedCccrs(chip, stag, regs);
    ClearUnusedCccrs(chip, stag, regs);
    ClearAllEscrs(chip, stag, regs);
  }

  /** p4_setup_ctrs. */
  method SetupCtrs(events: seq<Event>, chip: Chip, stag: nat, regs: Registers, configs: seq<Config>, reset: array<bv32>)
    requires SoundTable(events)
    requires Thread(chip, stag) && Equipped(chip, regs.file)
    requires NumCounters(chip) <= |configs| && NumCounters(chip) <= reset.Length
    modifies regs, reset
    ensures regs.file.Keys == old(regs.file).Keys
    ensures !PmcAvailable(old(regs.file)) ==> regs.file == old(regs.file) && reset[..] == old(reset[..])
    ensures PmcAvailable(old(regs.file)) ==> forall a :: a in regs.file ==>
      regs.file[a] == Final(events, chip, stag, configs, NumCounters(chip), a, Wiped(chip, stag, a, old(regs.file)[a]))
    ensures PmcAvailable(old(regs.file)) ==>
      forall i :: 0 <= i < NumCounters(chip) ==> reset[i] == if configs[i].enabled then configs[i].count else 0
  {
    assert Known(chip, MISC_ENABLE);
    var misc := regs.Rdmsr(MISC_ENABLE);
    if misc.low & 0x80 == 0 {
      return;
    }
    Wipe(chip, stag, regs);
    SetupCounters(events, chip, stag, regs, configs, reset);
  }

  lemma BehindOwn(k: nat)
    requires k < 8
    ensures Behind(CounterAddress(k)) == k && CounterIndex(CounterAddress(k)) == k
    ensures Behind(CccrAddress(k)) == k && CccrIndex(CccrAddress(k)) == k
    ensures CounterAddress(k) != CccrAddress(k)
  {
  }

  lemma ServedIsCleared(chip: Chip, stag: nat, k: nat, escr: nat)
    requires Thread(chip, stag) && Own(chip, stag, NumCounters(chip), k) && Serves(escr, k)
    ensures Cleared(chip, stag, escr)
  {
    if chip.siblings {
      assert k / 4 == stag;
    }
  }

  lemma BoundIsCleared(events: seq<Event>, chip: Chip, stag: nat, k: nat, code: nat)
    requires SoundTable(events)
    requires Thread(chip, stag) && k < 8 && Own(chip, stag, NumCounters(chip), k) && Bound(events, code, k).Some?
    ensures var escr := Bound(events, code, k).value;
            Cleared(chip, stag, escr) && Behind(escr) == k && escr >= BSU_ESCR0
  {
    BoundIsOwned(events, code, k);
    ServedIsCleared(chip, stag, k, Bound(events, code, k).value);
  }

  lemma CccrSetAfterClearing(stag: nat, e: Event, was: Value)
    ensures CccrSet(stag, e, CccrCleared(was)) == CccrSet(stag, e, was)
  {
    assert ClearCccr(ClearCccr(was.low)) == ClearCccr(was.low);
  }

  lemma EscrSetAfterClearing(stag: nat, c: Config, e: Event)
    ensures EscrSet(stag, c, e, ZERO) == Value(EscrValue(stag, c, e), 0)
  {
    var v := EscrValue(stag, c, e);
    assert (0 as bv32 & 0x8000_0003) | v == v;
  }

  /** The registers that setup clears or writes, by number: of a chip without siblings all, and
    * else those of one parity, with the two stray ESCRs dealt out. */
  predicate WrittenNumber(chip: Chip, stag: nat, a: nat) {
    || CounterNumber(chip, stag, a)
    || (if !chip.siblings then 0x360 <= a <= 0x371
        else if stag == 0 then a in {0x360, 0x364, 0x368, 0x370, 0x361, 0x365, 0x369, 0x36c, 0x36e}
        else a in {0x362, 0x366, 0x36a, 0x371, 0x363, 0x367, 0x36b, 0x36d, 0x36f})
    || ClearedNumber(chip, stag, a)
  }

  predicate CounterNumber(chip: Chip, stag: nat, a: nat) {
    || (a in {0x300, 0x304, 0x308, 0x310} && (!chip.siblings || stag == 0))
    || (a in {0x302, 0x306, 0x30a, 0x311} && (!chip.siblings || stag == 1))
  }

  predicate ClearedNumber(chip: Chip, stag: nat, a: nat) {
    || (OfThread(chip, stag, a)
        && (0x3a0 <= a < 0x3ba || 0x3bc <= a <= 0x3be || 0x3c0 <= a <= 0x3c5 || 0x3c8 <= a <= 0x3cd))
    || (chip.model < 3 && (a == 0x3ba || a == 0x3bb))
    || (a == 0x3e0 && (!chip.siblings || stag == 0)) || (a == 0x3e1 && (!chip.siblings || stag == 1))
  }

  predicate OfThread(chip: Chip, stag: nat, a: nat) {
    !chip.siblings || a % 2 == stag
  }

  lemma WrittenByNumber(chip: Chip, stag: nat, a: nat)
    requires Thread(chip, stag)
    ensures Written(chip, stag, a) <==> WrittenNumber(chip, stag, a)
    ensures Cleared(chip, stag, a) <==> ClearedNumber(chip, stag, a)
    ensures MISC_ENABLE == 0x1a0
  {
  }

  /** What setup leaves in a register of which it programs nothing: zero in a cleared ESCR, the
    * reserved and required bits in a CCCR, and what was there in any other. */
  lemma WipedByNumber(chip: Chip, stag: nat, a: nat, was: Value)
    requires Thread(chip, stag)
    ensures ClearedNumber(chip, stag, a) ==> Wiped(chip, stag, a, was) == Value(0, 0)
    ensures 0x360 <= a <= 0x371 && WrittenNumber(chip, stag, a) ==>
              CccrIsClear(Wiped(chip, stag, a, was).low, was.low) && Wiped(chip, stag, a, was).high == was.high
    ensures !WrittenNumber(chip, stag, a) ==> Wiped(chip, stag, a, was) == was
  {
    WrittenByNumber(chip, stag, a);
    CccrClearReads(was.low);
  }

  /** Each enabled counter ends up counting its own event: no other counter of its thread
    * disturbs its registers. */
  lemma CountersDoNotCollide(events: seq<Event>, chip: Chip, stag: nat, configs: seq<Config>, i: nat, was: Value)
    requires Thread(chip, stag) && i < NumCounters(chip) <= |configs| && configs[i].enabled
    ensures var k, n := Virtual(chip, stag, i), NumCounters(chip);
            Final(events, chip, stag, configs, n, CounterAddress(k), Wiped(chip, stag, CounterAddress(k), was))
            == Value(-configs[i].count, 0xffff_ffff)
  {
    BehindOwn(Virtual(chip, stag, i));
    assert Turn(events, stag, configs[i], Virtual(chip, stag, i), CounterAddress(Virtual(chip, stag, i)), was)
        == Value(-configs[i].count, 0xffff_ffff);
  }

  lemma EscrTurn(events: seq<Event>, stag: nat, c: Config, k: nat, escr: nat)
    requires k < 8 && c.enabled && Bound(events, c.event, k) == Some(escr) && escr >= BSU_ESCR0
    ensures Turn(events, stag, c, k, escr, ZERO) == Value(EscrValue(stag, c, events[c.event - 1]), 0)
  {
    EscrSetAfterClearing(stag, c, events[c.event - 1]);
  }

  lemma EscrIsSet(events: seq<Event>, chip: Chip, stag: nat, configs: seq<Config>, i: nat, escr: nat, was: Value)
    requires SoundTable(events)
    requires Thread(chip, stag) && i < NumCounters(chip) <= |configs| && configs[i].enabled
    requires Bound(events, configs[i].event, Virtual(chip, stag, i)) == Some(escr)
    ensures Final(events, chip, stag, configs, NumCounters(chip), escr, Wiped(chip, stag, escr, was))
            == Value(EscrValue(stag, configs[i], events[configs[i].event - 1]), 0)
    ensures EscrReads(EscrValue(stag, configs[i], events[configs[i].event - 1]), stag, configs[i],
                      events[configs[i].event - 1])
  {
    var k := Virtual(chip, stag, i);
    EscrValueReads(stag, configs[i], events[configs[i].event - 1]);
    BoundIsCleared(events, chip, stag, k, configs[i].event);
    EscrTurn(events, stag, configs[i], k, escr);
  }

  lemma CccrIsSet(events: seq<Event>, chip: Chip, stag: nat, configs: seq<Config>, i: nat, was: Value)
    requires SoundTable(events)
    requires Thread(chip, stag) && i < NumCounters(chip) <= |configs| && configs[i].enabled
    requires Bound(events, configs[i].event, Virtual(chip, stag, i)).Some?
    ensures var c, n, cccr := configs[i], NumCounters(chip), CccrAddress(Virtual(chip, stag, i));
            Final(events, chip, stag, configs, n, cccr, Wiped(chip, stag, cccr, was))
            == Value(CccrValue(stag, was.low, events[c.event - 1]), was.high)
    ensures CccrReads(CccrValue(stag, was.low, events[configs[i].event - 1]), was.low, stag,
                      events[configs[i].event - 1])
  {
    var k := Virtual(chip, stag, i);
    CccrValueReads(stag, was.low, events[configs[i].event - 1]);
    BehindOwn(k);
    CccrsApart(chip, stag, CccrAddress(k));
    CccrSetAfterClearing(stag, events[configs[i].event - 1], was);
  }

  /** A counter can count an event if and only if the event's entry binds the counter, and then
    * through the ESCR named with it. */
  lemma BoundByEntry(events: seq<Event>, code: nat, k: nat, escr: nat)
    requires k < 8
    ensures Bound(events, code, k) == Some(escr) <==>
      && 1 <= code <= |events|
      && var e := events[code - 1];
         e.first == Binding(Some(k), escr) || (e.first.counter != Some(k) && e.second == Binding(Some(k), escr))
  {
  }

  /** A register of the counter, or of the event it is to count. */
  predicate SetFor(events: seq<Event>, c: Config, k: nat, a: nat)
    requires k < 8
  {
    && c.enabled
    && (a == CounterAddress(k)
        || match Bound(events, c.event, k)
           case None => false
           case Some(escr) => a == CccrAddress(k) || a == escr)
  }

  /** Setup programs nothing but the registers of enabled counters, and of the events that they
    * can count: any other register is left as clearing leaves it. */
  lemma NothingElseIsSet(events: seq<Event>, chip: Chip, stag: nat, configs: seq<Config>, a: nat, was: Value)
    requires Thread(chip, stag) && NumCounters(chip) <= |configs|
    requires forall i :: 0 <= i < NumCounters(chip) ==> !SetFor(events, configs[i], Virtual(chip, stag, i), a)
    ensures Final(events, chip, stag, configs, NumCounters(chip), a, was) == was
  {
    var k := Behind(a);
    if Own(chip, stag, NumCounters(chip), k) {
      var i := k - NumCounters(chip) * stag;
      assert !SetFor(events, configs[i], Virtual(chip, stag, i), a);
    }
  }

  /** A register that is not among those written keeps its value. */
  lemma OthersKeep(events: seq<Event>, chip: Chip, stag: nat, configs: seq<Config>, a: nat, was: Value)
    requires SoundTable(events)
    requires Thread(chip, stag) && NumCounters(chip) <= |configs| && !Written(chip, stag, a)
    ensures Final(events, chip, stag, configs, NumCounters(chip), a, Wiped(chip, stag, a, was)) == was
  {
    var k := Behind(a);
    if Own(chip, stag, NumCounters(chip), k) {
      var i := k - NumCounters(chip) * stag;
      BehindOwn(k);
      if Bound(events, configs[i].event, k) == Some(a) {
        BoundIsCleared(events, chip, stag, k, configs[i].event);
      }
    }
  }

  /** Nor does the other thread write any of them. */
  lemma ThreadsDoNotCollide(chip: Chip, k: nat, escr: nat)
    requires chip.siblings && k < 8
    ensures !Written(chip, 1 - k / 4, CounterAddress(k)) && !Written(chip, 1 - k / 4, CccrAddress(k))
    ensures Serves(escr, k) ==> !Written(chip, 1 - k / 4, escr)
  {
    WrittenByNumber(chip, 1 - k / 4, CounterAddress(k));
    WrittenByNumber(chip, 1 - k / 4, CccrAddress(k));
    WrittenByNumber(chip, 1 - k / 4, escr);
    if Serves(escr, k) {
      ServedByOwnThread(chip, k, escr);
    }
  }

  lemma ServedByOwnThread(chip: Chip, k: nat, escr: nat)
    requires chip.siblings && k < 8 && Serves(escr, k)
    ensures !WrittenNumber(chip, 1 - k / 4, escr)
  {
  }

  /** In `file`, which was `init` before any setup, counter `i` of a thread is loaded, and its
    * ESCR and CCCR are set for its event. */
  predicate Programmed(events: seq<Event>, chip: Chip, stag: nat, configs: seq<Config>, i: nat, init: File, file: File)
    requires Thread(chip, stag) && i < NumCounters(chip) <= |configs|
  {
    var k, c := Virtual(chip, stag, i), configs[i];
    && CounterAddress(k) in file && file[CounterAddress(k)] == Value(-c.count, 0xffff_ffff)
    && match Bound(events, c.event, k)
       case None => true
       case Some(escr) =>
         && escr in file && EscrReads(file[escr].low, stag, c, events[c.event - 1]) && file[escr].high == 0
         && CccrAddress(k) in file && CccrAddress(k) in init
         && CccrReads(file[CccrAddress(k)].low, init[CccrAddress(k)].low, stag, events[c.event - 1])
         && file[CccrAddress(k)].high == init[CccrAddress(k)].high
  }

  lemma CounterIsKnown(chip: Chip, k: nat)
    requires k < 8
    ensures Known(chip, CounterAddress(k)) && Known(chip, CccrAddress(k))
  {
  }

  lemma FinalIsProgrammed(events: seq<Event>, chip: Chip, stag: nat, configs: seq<Config>, i: nat, init: File,
                          file: File)
    requires SoundTable(events) && Thread(chip, stag) && i < NumCounters(chip) <= |configs| && configs[i].enabled
    requires Equipped(chip, init) && file.Keys == init.Keys
    requires forall a :: a in file ==>
      file[a] == Final(events, chip, stag, configs, NumCounters(chip), a, Wiped(chip, stag, a, init[a]))
    ensures Programmed(events, chip, stag, configs, i, init, file)
  {
    var k, c := Virtual(chip, stag, i), configs[i];
    CounterIsKnown(chip, k);
    CountersDoNotCollide(events, chip, stag, configs, i, init[CounterAddress(k)]);
    if Bound(events, c.event, k).Some? {
      var escr := Bound(events, c.event, k).value;
      BoundIsKnown(events, chip, c.event, k);
      EscrIsSet(events, chip, stag, configs, i, escr, init[escr]);
      CccrIsSet(events, chip, stag, configs, i, init[CccrAddress(k)]);
    }
  }
}
