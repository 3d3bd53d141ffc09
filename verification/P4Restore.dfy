/** Pentium 4 registers end a profiling session as they began it (x86/nmi_int.c with
  * x86/op_model_p4.c), although a hyper-thread writes registers that only its sibling saves. */
module P4Restore {
  import opened Msr
  import opened P4

  /** The addresses that a thread saves and restores. */
  function SavedBy(chip: Chip, stag: nat): seq<nat>
    requires Thread(chip, stag)
  {
    Counters(chip, stag) + Controls(chip, stag)
  }

  lemma {:induction false} RangeHas(lo: nat, hi: nat, step: nat, a: nat)
    requires step == 1 || step == 2
    ensures a in Range(lo, hi, step) <==> InRange(lo, hi, step, a)
    decreases hi + 1 - lo
  {
    if lo <= hi {
      RangeHas(lo + step, hi, step, a);
    }
  }

  predicate SavedLow(chip: Chip, stag: nat, a: nat) {
    || InRange(BPU_CCCR0 + stag, IQ_CCCR5, Increment(chip), a)
    || InRange(BSU_ESCR0 + stag, IQ_ESCR0 - 1, Increment(chip), a)
    || (chip.model < 3 && InRange(IQ_ESCR0 + stag, IQ_ESCR1, Increment(chip), a))
  }

  /** Later models have no IQ_ESCRs. */
  lemma LowControlsHave(chip: Chip, stag: nat, a: nat)
    requires Thread(chip, stag)
    ensures a in LowControls(chip, stag) <==> SavedLow(chip, stag, a)
  {
    var step := Increment(chip);
    RangeHas(BPU_CCCR0 + stag, IQ_CCCR5, step, a);
    RangeHas(BSU_ESCR0 + stag, IQ_ESCR0 - 1, step, a);
    RangeHas(BSU_ESCR0 + stag, BSU_ESCR1, step, a);
    RangeHas(IQ_ESCR0 + stag, IQ_ESCR1, step, a);
  }

  lemma HighControlsHave(chip: Chip, stag: nat, a: nat)
    requires Thread(chip, stag)
    ensures a in HighControls(chip, stag) <==> ClearedHigh(chip, stag, a)
  {
    var step := Increment(chip);
    RangeHas(RAT_ESCR0 + stag, SSU_ESCR0, step, a);
    RangeHas(MS_ESCR0 + stag, TC_ESCR1, step, a);
    RangeHas(IX_ESCR0 + stag, CRU_ESCR3, step, a);
  }

  lemma CounterAt(k: nat, a: nat)
    requires k < 8
    ensures CounterIndex(a) == k <==> a == CounterAddress(k)
  {
  }

  lemma CountersHave(chip: Chip, stag: nat, a: nat)
    requires Thread(chip, stag)
    ensures a in Counters(chip, stag) <==> IsCounter(chip, stag, a)
  {
    if IsCounter(chip, stag, a) {
      CounterAt(CounterIndex(a), a);
      assert Counters(chip, stag)[CounterIndex(a) - NumCounters(chip) * stag] == a;
    }
    if a in Counters(chip, stag) {
      var i :| 0 <= i < NumCounters(chip) && Counters(chip, stag)[i] == a;
      CounterAt(Virtual(chip, stag, i), a);
    }
  }

  lemma SavedIs(chip: Chip, stag: nat, a: nat)
    requires Thread(chip, stag)
    ensures a in SavedBy(chip, stag) <==> Saved(chip, stag, a)
  {
    CountersHave(chip, stag, a);
    LowControlsHave(chip, stag, a);
    HighControlsHave(chip, stag, a);
  }

  /** The registers that a hyper-thread writes and only its sibling saves. */
  predicate LeftToSibling(chip: Chip, stag: nat, a: nat) {
    && chip.siblings
    && if stag == 0 then a in {0x361, 0x365, 0x369} || (chip.model < 3 && a == IQ_ESCR1)
       else a in {0x362, 0x366, 0x36a} || (chip.model < 3 && a == IQ_ESCR0)
  }

  lemma CccrIsSaved(chip: Chip, stag: nat, a: nat)
    requires Thread(chip, stag) && IsCccr(chip, stag, a)
    ensures BPU_CCCR0 <= a <= IQ_CCCR5
    ensures chip.siblings ==> (a % 2 != stag <==> LeftToSibling(chip, stag, a))
  {
  }

  lemma SavedIsNonzero(chip: Chip, stag: nat)
    requires Thread(chip, stag)
    ensures 0 !in SavedBy(chip, stag)
  {
    SavedIs(chip, stag, 0);
  }

  /** What a thread saves, by number. */
  predicate SavedNumber(chip: Chip, stag: nat, a: nat) {
    || CounterNumber(chip, stag, a)
    || (OfThread(chip, stag, a)
        && (0x360 <= a <= 0x371 || 0x3a0 <= a < 0x3ba || (chip.model < 3 && 0x3ba <= a <= 0x3bb)
            || 0x3bc <= a <= 0x3be || 0x3c0 <= a <= 0x3c5 || 0x3c8 <= a <= 0x3cd))
    || (a == 0x3e0 && (!chip.siblings || stag == 0)) || (a == 0x3e1 && (!chip.siblings || stag == 1))
  }

  lemma SavedByNumber(chip: Chip, stag: nat, a: nat)
    requires Thread(chip, stag)
    ensures a in SavedBy(chip, stag) <==> SavedNumber(chip, stag, a)
  {
    SavedIs(chip, stag, a);
    SavedLowNumber(chip, stag, a);
    SavedHighNumber(chip, stag, a);
  }

  lemma SavedLowNumber(chip: Chip, stag: nat, a: nat)
    requires Thread(chip, stag)
    ensures IsCounter(chip, stag, a) <==> CounterNumber(chip, stag, a)
    ensures SavedLow(chip, stag, a) <==>
      OfThread(chip, stag, a) && (0x360 <= a <= 0x371 || 0x3a0 <= a < 0x3ba || (chip.model < 3 && 0x3ba <= a <= 0x3bb))
  {
  }

  lemma SavedHighNumber(chip: Chip, stag: nat, a: nat)
    requires Thread(chip, stag)
    ensures ClearedHigh(chip, stag, a) <==>
      OfThread(chip, stag, a) && (0x3bc <= a <= 0x3be || 0x3c0 <= a <= 0x3c5 || 0x3c8 <= a <= 0x3cd)
    ensures a in Stray(chip, stag) <==>
      (a == 0x3e0 && (!chip.siblings || stag == 0)) || (a == 0x3e1 && (!chip.siblings || stag == 1))
  {
  }

  predicate Saved(chip: Chip, stag: nat, a: nat) {
    IsCounter(chip, stag, a) || SavedLow(chip, stag, a) || ClearedHigh(chip, stag, a) || a in Stray(chip, stag)
  }

  lemma WrittenCccr(chip: Chip, stag: nat, a: nat)
    requires Thread(chip, stag) && IsCccr(chip, stag, a)
    ensures Saved(chip, stag, a) <==> !LeftToSibling(chip, stag, a)
    ensures LeftToSibling(chip, stag, a) ==> SavedLow(chip, 1 - stag, a)
  {
    CccrIsSaved(chip, stag, a);
  }

  lemma WrittenEscr(chip: Chip, stag: nat, a: nat)
    requires Thread(chip, stag) && Cleared(chip, stag, a)
    ensures Saved(chip, stag, a) <==> !LeftToSibling(chip, stag, a)
    ensures LeftToSibling(chip, stag, a) ==> SavedLow(chip, 1 - stag, a)
  {
  }

  lemma WrittenShares(chip: Chip, stag: nat, a: nat)
    requires Thread(chip, stag) && Written(chip, stag, a)
    ensures Saved(chip, stag, a) <==> !LeftToSibling(chip, stag, a)
    ensures LeftToSibling(chip, stag, a) ==> Saved(chip, 1 - stag, a)
  {
    if IsCccr(chip, stag, a) {
      WrittenCccr(chip, stag, a);
    } else if Cleared(chip, stag, a) {
      WrittenEscr(chip, stag, a);
    }
  }

  /** A thread that writes a register saves it, except for exactly the registers that it
    * leaves to its sibling, which does save them. */
  lemma WrittenIsSaved(chip: Chip, stag: nat, a: nat)
    requires Thread(chip, stag) && Written(chip, stag, a)
    ensures a in SavedBy(chip, stag) <==> !LeftToSibling(chip, stag, a)
    ensures LeftToSibling(chip, stag, a) ==> a in SavedBy(chip, 1 - stag)
  {
    WrittenShares(chip, stag, a);
    SavedIs(chip, stag, a);
    if chip.siblings {
      SavedIs(chip, 1 - stag, a);
    }
  }

  // ---- a whole machine ----

  /** A logical CPU: the package it belongs to, its stagger, and its slots. */
  datatype Logical = Logical(package: nat, stag: nat, slots: seq<Slot>)

  type Views = nat -> View

  /** All CPUs have filled in their addresses, and hyper-threads come in pairs. */
  predicate Machine(chip: Chip, ls: seq<Logical>) {
    && (forall t :: 0 <= t < |ls| ==>
          && Thread(chip, ls[t].stag) && |ls[t].slots| == |SavedBy(chip, ls[t].stag)|
          && Named(ls[t].slots, SavedBy(chip, ls[t].stag)))
    && (chip.siblings ==> forall t :: 0 <= t < |ls| ==> HasSibling(ls, t))
  }

  predicate HasSibling(ls: seq<Logical>, t: nat)
    requires t < |ls|
  {
    exists u :: 0 <= u < |ls| && ls[u].package == ls[t].package && ls[u].stag == 1 - ls[t].stag
  }

  /** The CPUs of a package reach the same registers. */
  function Cpus(views: Views, ls: seq<Logical>): (cpus: seq<Cpu>)
    ensures |cpus| == |ls| && forall t :: 0 <= t < |ls| ==> cpus[t] == Cpu(views(ls[t].package), ls[t].slots)
  {
    seq(|ls|, t requires 0 <= t < |ls| => Cpu(views(ls[t].package), ls[t].slots))
  }

  /** Some CPU writes the register during a session. */
  ghost predicate Touched(chip: Chip, views: Views, ls: seq<Logical>, reg: nat)
    requires Machine(chip, ls)
  {
    exists t, a: nat :: 0 <= t < |ls| && Written(chip, ls[t].stag, a) && views(ls[t].package)(a) == reg
  }

  lemma SavedMeansCovered(chip: Chip, views: Views, ls: seq<Logical>, t: nat, a: nat)
    requires Machine(chip, ls) && t < |ls| && a in SavedBy(chip, ls[t].stag)
    ensures Covered(Cpus(views, ls), views(ls[t].package)(a))
  {
    SavedIsNonzero(chip, ls[t].stag);
    var i :| 0 <= i < |SavedBy(chip, ls[t].stag)| && SavedBy(chip, ls[t].stag)[i] == a;
    assert ls[t].slots[i].addr == a;
    assert Saves(Cpus(views, ls)[t], views(ls[t].package)(a));
  }

  lemma SiblingOf(ls: seq<Logical>, t: nat) returns (u: nat)
    requires t < |ls| && HasSibling(ls, t)
    ensures u < |ls| && ls[u].package == ls[t].package && ls[u].stag == 1 - ls[t].stag
  {
    u :| 0 <= u < |ls| && ls[u].package == ls[t].package && ls[u].stag == 1 - ls[t].stag;
  }

  lemma SiblingCovers(chip: Chip, views: Views, ls: seq<Logical>, t: nat, a: nat)
    requires Machine(chip, ls) && t < |ls| && chip.siblings && a in SavedBy(chip, 1 - ls[t].stag)
    ensures Covered(Cpus(views, ls), views(ls[t].package)(a))
  {
    var u := SiblingOf(ls, t);
    SavedMeansCovered(chip, views, ls, u, a);
  }

  lemma WrittenIsCovered(chip: Chip, views: Views, ls: seq<Logical>, t: nat, a: nat)
    requires Machine(chip, ls) && t < |ls| && Written(chip, ls[t].stag, a)
    ensures Covered(Cpus(views, ls), views(ls[t].package)(a))
  {
    WrittenIsSaved(chip, ls[t].stag, a);
    if LeftToSibling(chip, ls[t].stag, a) {
      SiblingCovers(chip, views, ls, t, a);
    } else {
      SavedMeansCovered(chip, views, ls, t, a);
    }
  }

  lemma TouchedIsCovered(chip: Chip, views: Views, ls: seq<Logical>, reg: nat)
    requires Machine(chip, ls) && Touched(chip, views, ls, reg)
    ensures Covered(Cpus(views, ls), reg)
  {
    var t: int, a: nat :| 0 <= t < |ls| && Written(chip, ls[t].stag, a) && views(ls[t].package)(a) == reg;
    WrittenIsCovered(chip, views, ls, t, a);
  }

  /** Whatever a session writes to the registers that setup writes, however packages map
    * their registers and in whatever order the CPUs restore, the registers end as they
    * began. */
  lemma SessionRestored(chip: Chip, views: Views, ls: seq<Logical>, init: File, now: File, ws: seq<Write>)
    requires Machine(chip, ls) && now.Keys == init.Keys
    requires forall reg :: reg in init && now[reg] != init[reg] ==> Touched(chip, views, ls, reg)
    requires RestorePhase(Cpus(views, ls), init, ws)
    ensures Apply(now, ws) == init
  {
    forall reg | reg in init && now[reg] != init[reg]
      ensures Covered(Cpus(views, ls), reg)
    {
      TouchedIsCovered(chip, views, ls, reg);
    }
    RestoredIffCovered(Cpus(views, ls), init, now, ws);
  }

  /** Alone, a hyper-thread would not restore what it leaves to its sibling. */
  lemma SiblingIsNeeded(chip: Chip, view: View, slots: seq<Slot>, stag: nat, init: File, now: File, ws: seq<Write>,
                        a: nat)
    requires Thread(chip, stag) && |slots| == |SavedBy(chip, stag)| && Named(slots, SavedBy(chip, stag))
    requires forall b, c :: view(b) == view(c) ==> b == c
    requires now.Keys == init.Keys && view(a) in init && now[view(a)] != init[view(a)]
    requires Written(chip, stag, a) && LeftToSibling(chip, stag, a)
    requires RestorePhase([Cpu(view, slots)], init, ws)
    ensures Apply(now, ws) != init
  {
    WrittenIsSaved(chip, stag, a);
    RestoredIffCovered([Cpu(view, slots)], init, now, ws);
  }

  // ---- nmi_setup and nmi_shutdown of a package ----

  const SELF: View := (a: nat) => a

  lemma SavedIsKnown(chip: Chip, stag: nat, a: nat)
    requires Thread(chip, stag) && Saved(chip, stag, a)
    ensures Known(chip, a)
  {
    if IsCounter(chip, stag, a) {
      assert 0x300 <= a <= 0x311;
    }
  }

  /** The slots name these addresses, and hold what `file` has there. */
  ghost predicate HoldsSaved(slots: seq<Slot>, addrs: seq<nat>, file: File) {
    && |slots| == |addrs| && Named(slots, addrs) && Present(SELF, file, slots)
    && Save(SELF, file, slots) == slots
  }

  lemma SaveHolds(before: seq<Slot>, addrs: seq<nat>, file: File)
    requires |before| == |addrs| && Named(before, addrs) && forall a :: a in addrs ==> a in file
    ensures Present(SELF, file, before) && HoldsSaved(Save(SELF, file, before), addrs, file)
  {
    forall i | 0 <= i < |before| && before[i].addr != 0
      ensures SELF(before[i].addr) in file
    {
      assert addrs[i] in addrs;
    }
    var after := Save(SELF, file, before);
    assert Save(SELF, file, after) == after;
  }

  lemma NamedIsSaved(slots: seq<Slot>, addrs: seq<nat>, a: nat)
    requires |slots| == |addrs| && Named(slots, addrs) && a in addrs && a != 0
    ensures Saves(Cpu(SELF, slots), a)
  {
    var i :| 0 <= i < |addrs| && addrs[i] == a;
    assert slots[i].addr == a;
  }

  /** What a thread puts back when it shuts down: the controls, then the counters. */
  function PutBack(controls: seq<Slot>, counters: seq<Slot>): seq<Write> {
    Writes(SELF, controls) + Writes(SELF, counters)
  }

  ghost predicate PutsBackAll(ws: seq<Write>, chip: Chip, stag: nat, file: File)
    requires Thread(chip, stag)
  {
    Replays(ws, file) && forall a :: a in SavedBy(chip, stag) ==> Puts(ws, a)
  }

  lemma ThreadPutsBack(chip: Chip, stag: nat, controls: seq<Slot>, counters: seq<Slot>, file: File)
    requires Thread(chip, stag)
    requires HoldsSaved(controls, Controls(chip, stag), file) && HoldsSaved(counters, Counters(chip, stag), file)
    ensures PutsBackAll(PutBack(controls, counters), chip, stag, file)
  {
    WritesAreSaved(Cpu(SELF, controls), file);
    WritesAreSaved(Cpu(SELF, counters), file);
    SavedIsNonzero(chip, stag);
    forall a | a in SavedBy(chip, stag)
      ensures Puts(PutBack(controls, counters), a)
    {
      PutsConcat(Writes(SELF, controls), Writes(SELF, counters), a);
      if a in Controls(chip, stag) {
        NamedIsSaved(controls, Controls(chip, stag), a);
      } else {
        NamedIsSaved(counters, Counters(chip, stag), a);
      }
    }
  }

  /** nmi_save_registers on one thread. */
  method SaveThread(chip: Chip, stag: nat, regs: Registers) returns (counters: array<Slot>, controls: array<Slot>)
    requires Thread(chip, stag) && Equipped(chip, regs.file)
    ensures fresh(counters) && fresh(controls) && counters != controls
    ensures Present(SELF, regs.file, counters[..]) && Present(SELF, regs.file, controls[..])
    ensures PutsBackAll(PutBack(controls[..], counters[..]), chip, stag, regs.file)
  {
    counters := new Slot[NumCounters(chip)](_ => Slot(0, ZERO));
    controls := new Slot[NumControls(chip)](_ => Slot(0, ZERO));
    FillInAddresses(chip, stag, counters, controls);
    forall a | a in SavedBy(chip, stag)
      ensures a in regs.file
    {
      SavedIs(chip, stag, a);
      SavedIsKnown(chip, stag, a);
    }
    forall a | a in Counters(chip, stag) || a in Controls(chip, stag)
      ensures a in regs.file
    {
      assert a in SavedBy(chip, stag);
    }
    SaveHolds(counters[..], Counters(chip, stag), regs.file);
    SaveHolds(controls[..], Controls(chip, stag), regs.file);
    NmiCpuSaveRegisters(SELF, regs, counters, controls);
    ThreadPutsBack(chip, stag, controls[..], counters[..], regs.file);
  }

  /** Putting back all that was saved undoes whatever the threads have written. */
  lemma AllIsUndone(chip: Chip, first: seq<Write>, second: seq<Write>, init: File, now: File)
    requires PutsBackAll(first, chip, 0, init) && now.Keys == init.Keys
    requires if chip.siblings then PutsBackAll(second, chip, 1, init) else second == []
    requires forall a: nat :: a in init && now[a] != init[a] ==> WrittenByPackage(chip, a)
    ensures Apply(Apply(now, first), second) == init
  {
    ApplyConcat(now, first, second);
    forall a: nat | a in init && now[a] != init[a]
      ensures Puts(first + second, a)
    {
      PutsConcat(first, second, a);
      WrittenIsSaved(chip, if Written(chip, 0, a) then 0 else 1, a);
    }
    RestoredIffPut(init, now, first + second);
  }

  predicate WrittenByPackage(chip: Chip, a: nat) {
    Written(chip, 0, a) || (chip.siblings && Written(chip, 1, a))
  }

  /** Every enabled counter of the thread is programmed, where performance counters are
    * available. */
  ghost predicate ThreadIsSet(events: seq<Event>, chip: Chip, stag: nat, configs: seq<Config>, init: File, file: File)
    requires Thread(chip, stag) && NumCounters(chip) <= |configs|
  {
    PmcAvailable(init) ==>
      forall i :: 0 <= i < NumCounters(chip) && configs[i].enabled ==>
        Programmed(events, chip, stag, configs, i, init, file)
  }

  /** Setting up a thread programs its counters, and leaves other registers alone. */
  method SetupThread(events: seq<Event>, chip: Chip, stag: nat, regs: Registers, configs: seq<Config>,
                     reset: array<bv32>)
    requires SoundTable(events) && Thread(chip, stag) && Equipped(chip, regs.file)
    requires NumCounters(chip) <= |configs| && NumCounters(chip) <= reset.Length
    modifies regs, reset
    ensures regs.file.Keys == old(regs.file).Keys
    ensures forall a: nat :: a in regs.file && regs.file[a] != old(regs.file)[a] ==> Written(chip, stag, a)
    ensures ThreadIsSet(events, chip, stag, configs, old(regs.file), regs.file)
  {
    ghost var init := regs.file;
    forall a: nat | a in regs.file && !Written(chip, stag, a)
      ensures Final(events, chip, stag, configs, NumCounters(chip), a, Wiped(chip, stag, a, regs.file[a]))
           == regs.file[a]
    {
      OthersKeep(events, chip, stag, configs, a, regs.file[a]);
    }
    SetupCtrs(events, chip, stag, regs, configs, reset);
    if PmcAvailable(init) {
      forall i | 0 <= i < NumCounters(chip) && configs[i].enabled
        ensures Programmed(events, chip, stag, configs, i, init, regs.file)
      {
        FinalIsProgrammed(events, chip, stag, configs, i, init, regs.file);
      }
    }
  }

  /** The registers that a programmed counter is about, before and after, are all that
    * matters. */
  lemma SameRegisters(events: seq<Event>, chip: Chip, stag: nat, configs: seq<Config>, i: nat,
                      init: File, file: File, init': File, file': File)
    requires SoundTable(events) && chip.siblings && Thread(chip, stag) && i < NumCounters(chip) <= |configs|
    requires init'.Keys == init.Keys && file'.Keys == file.Keys
    requires Programmed(events, chip, stag, configs, i, init, file)
    requires forall a: nat :: a in init && init'[a] != init[a] ==> Written(chip, 1 - stag, a)
    requires forall a: nat :: a in file && file'[a] != file[a] ==> Written(chip, 1 - stag, a)
    ensures Programmed(events, chip, stag, configs, i, init', file')
  {
    var k := Virtual(chip, stag, i);
    assert k / 4 == stag;
    ThreadsDoNotCollide(chip, k, 0);
    if Bound(events, configs[i].event, k).Some? {
      BoundIsOwned(events, configs[i].event, k);
      ThreadsDoNotCollide(chip, k, Bound(events, configs[i].event, k).value);
    }
  }

  /** What one thread has set, the setup of the other leaves, and what the other sets is what
    * it would have set first. */
  lemma BothStaySet(events: seq<Event>, chip: Chip, configs: seq<Config>, init: File, mid: File, now: File)
    requires SoundTable(events) && chip.siblings && NumCounters(chip) <= |configs|
    requires mid.Keys == init.Keys && now.Keys == init.Keys && (PmcAvailable(mid) <==> PmcAvailable(init))
    requires ThreadIsSet(events, chip, 0, configs, init, mid) && ThreadIsSet(events, chip, 1, configs, mid, now)
    requires forall a: nat :: a in mid && mid[a] != init[a] ==> Written(chip, 0, a)
    requires forall a: nat :: a in now && now[a] != mid[a] ==> Written(chip, 1, a)
    ensures ThreadIsSet(events, chip, 0, configs, init, now) && ThreadIsSet(events, chip, 1, configs, init, now)
  {
    if PmcAvailable(init) {
      forall i | 0 <= i < NumCounters(chip) && configs[i].enabled
        ensures Programmed(events, chip, 0, configs, i, init, now) && Programmed(events, chip, 1, configs, i, init, now)
      {
        SameRegisters(events, chip, 0, configs, i, init, mid, init, now);
        SameRegisters(events, chip, 1, configs, i, mid, now, init, now);
      }
    }
  }

  lemma MiscIsNotWritten(chip: Chip, stag: nat)
    requires Thread(chip, stag)
    ensures !Written(chip, stag, MISC_ENABLE)
  {
  }

  /** nmi_setup on a package: all threads save before any is set up, and in the end the
    * counters of all of them are programmed. */
  method NmiSetup(events: seq<Event>, chip: Chip, regs: Registers, configs: seq<Config>, reset: array<bv32>)
    returns (counters0: array<Slot>, controls0: array<Slot>, counters1: array<Slot>, controls1: array<Slot>)
    requires SoundTable(events) && Equipped(chip, regs.file)
    requires NumCounters(chip) <= |configs| && NumCounters(chip) <= reset.Length
    modifies regs, reset
    ensures fresh({counters0, controls0, counters1, controls1})
    ensures regs.file.Keys == old(regs.file).Keys
    ensures forall a: nat :: a in regs.file && regs.file[a] != old(regs.file)[a] ==> WrittenByPackage(chip, a)
    ensures Present(SELF, regs.file, counters0[..]) && Present(SELF, regs.file, controls0[..])
    ensures Present(SELF, regs.file, counters1[..]) && Present(SELF, regs.file, controls1[..])
    ensures PutsBackAll(PutBack(controls0[..], counters0[..]), chip, 0, old(regs.file))
    ensures if chip.siblings then PutsBackAll(PutBack(controls1[..], counters1[..]), chip, 1, old(regs.file))
            else PutBack(controls1[..], counters1[..]) == []
    ensures ThreadIsSet(events, chip, 0, configs, old(regs.file), regs.file)
    ensures chip.siblings ==> ThreadIsSet(events, chip, 1, configs, old(regs.file), regs.file)
  {
    counters0, controls0 := SaveThread(chip, 0, regs);
    if chip.siblings {
      counters1, controls1 := SaveThread(chip, 1, regs);
    } else {
      counters1, controls1 := new Slot[0], new Slot[0];
    }
    SetupAll(events, chip, regs, configs, reset);
  }

  method SetupAll(events: seq<Event>, chip: Chip, regs: Registers, configs: seq<Config>, reset: array<bv32>)
    requires SoundTable(events) && Equipped(chip, regs.file)
    requires NumCounters(chip) <= |configs| && NumCounters(chip) <= reset.Length
    modifies regs, reset
    ensures regs.file.Keys == old(regs.file).Keys
    ensures forall a: nat :: a in regs.file && regs.file[a] != old(regs.file)[a] ==> WrittenByPackage(chip, a)
    ensures ThreadIsSet(events, chip, 0, configs, old(regs.file), regs.file)
    ensures chip.siblings ==> ThreadIsSet(events, chip, 1, configs, old(regs.file), regs.file)
  {
    SetupThread(events, chip, 0, regs, configs, reset);
    ghost var mid := regs.file;
    MiscIsNotWritten(chip, 0);
    if chip.siblings {
      SetupThread(events, chip, 1, regs, configs, reset);
      BothStaySet(events, chip, configs, old(regs.file), mid, regs.file);
    }
  }

  /** Profiling set up on all threads of a package and shut down again leaves every register
    * as it was found. */
  method SetupAndShutdown(events: seq<Event>, chip: Chip, regs: Registers, configs: seq<Config>, reset: array<bv32>)
    requires SoundTable(events) && Equipped(chip, regs.file)
    requires NumCounters(chip) <= |configs| && NumCounters(chip) <= reset.Length
    modifies regs, reset
    ensures regs.file == old(regs.file)
  {
    var counters0, controls0, counters1, controls1 := NmiSetup(events, chip, regs, configs, reset);
    ghost var first, second := PutBack(controls0[..], counters0[..]), PutBack(controls1[..], counters1[..]);
    AllIsUndone(chip, first, second, old(regs.file), regs.file);
    NmiRestoreRegisters(SELF, regs, counters0, controls0);
    NmiRestoreRegisters(SELF, regs, counters1, controls1);
  }
}
