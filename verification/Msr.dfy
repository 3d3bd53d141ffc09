/** Saving and restoring model-specific registers around a profiling session
  * (x86/nmi_int.c). A CPU reaches physical registers through a `view` of its own, so that
  * any CPUs may share any of them. */
module Msr {
  datatype Value = Value(low: bv32, high: bv32)

  /** struct op_msr: an address, zero if the slot is unused, and the value saved. */
  datatype Slot = Slot(addr: nat, saved: Value)

  type View = nat -> nat
  type File = map<nat, Value>
  type Write = (nat, Value)

  class Registers {
    var file: File

    method Rdmsr(reg: nat) returns (v: Value)
      requires reg in file
      ensures v == file[reg]
    {
      v := file[reg];
    }

    method Wrmsr(reg: nat, v: Value)
      requires reg in file
      modifies this
      ensures file == old(file)[reg := v]
    {
      file := file[reg := v];
    }
  }

  /** Every slot in use names a register that is there. */
  predicate Present(view: View, file: File, slots: seq<Slot>) {
    forall i :: 0 <= i < |slots| && slots[i].addr != 0 ==> view(slots[i].addr) in file
  }

  function SaveOne(view: View, file: File, s: Slot): Slot {
    if s.addr != 0 && view(s.addr) in file then s.(saved := file[view(s.addr)]) else s
  }

  function Save(view: View, file: File, slots: seq<Slot>): (r: seq<Slot>)
    ensures |r| == |slots| && forall i :: 0 <= i < |slots| ==> r[i] == SaveOne(view, file, slots[i])
  {
    seq(|slots|, i requires 0 <= i < |slots| => SaveOne(view, file, slots[i]))
  }

  /** The writes that put the saved values back. */
  function Writes(view: View, slots: seq<Slot>): seq<Write> {
    if slots == [] then []
    else
      var last := slots[|slots| - 1];
      Writes(view, slots[..|slots| - 1]) + (if last.addr != 0 then [(view(last.addr), last.saved)] else [])
  }

  function Apply(file: File, ws: seq<Write>): File {
    if ws == [] then file else Apply(file, ws[..|ws| - 1])[ws[|ws| - 1].0 := ws[|ws| - 1].1]
  }

  lemma {:induction false} ApplyConcat(file: File, xs: seq<Write>, ys: seq<Write>)
    ensures Apply(file, xs + ys) == Apply(Apply(file, xs), ys)
  {
    if ys == [] {
      assert xs + ys == xs;
    } else {
      ApplyConcat(file, xs, ys[..|ys| - 1]);
      assert (xs + ys)[..|xs + ys| - 1] == xs + ys[..|ys| - 1];
    }
  }

  method SaveSlots(view: View, regs: Registers, slots: array<Slot>)
    requires Present(view, regs.file, slots[..])
    modifies slots
    ensures slots[..] == Save(view, regs.file, old(slots[..]))
  {
    for i := 0 to slots.Length
      invariant forall j :: 0 <= j < i ==> slots[j] == SaveOne(view, regs.file, old(slots[j]))
      invariant forall j :: i <= j < slots.Length ==> slots[j] == old(slots[j])
    {
      if slots[i].addr != 0 {
        assert old(slots[..])[i] == slots[i];
        var v := regs.Rdmsr(view(slots[i].addr));
        slots[i] := slots[i].(saved := v);
      }
    }
  }

  method RestoreSlots(view: View, regs: Registers, slots: array<Slot>)
    requires Present(view, regs.file, slots[..])
    modifies regs
    ensures regs.file == Apply(old(regs.file), Writes(view, slots[..])) && regs.file.Keys == old(regs.file).Keys
  {
    for i := 0 to slots.Length
      invariant regs.file == Apply(old(regs.file), Writes(view, slots[..i]))
      invariant regs.file.Keys == old(regs.file).Keys
    {
      assert slots[..i + 1][..i] == slots[..i];
      ghost var own: seq<Write> := if slots[i].addr != 0 then [(view(slots[i].addr), slots[i].saved)] else [];
      assert Writes(view, slots[..i + 1]) == Writes(view, slots[..i]) + own;
      ApplyConcat(old(regs.file), Writes(view, slots[..i]), own);
      if slots[i].addr != 0 {
        assert slots[..][i] == slots[i];
        regs.Wrmsr(view(slots[i].addr), slots[i].saved);
      }
    }
    assert slots[..slots.Length] == slots[..];
  }

  /** Slot `i` is the last to name register `reg`. */
  predicate LastToName(view: View, slots: seq<Slot>, i: nat, reg: nat) {
    && i < |slots| && slots[i].addr != 0 && view(slots[i].addr) == reg
    && forall j :: i < j < |slots| && slots[j].addr != 0 ==> view(slots[j].addr) != reg
  }

  /** Each register that is named is left with the value of the last slot that names it, and the
    * others as they were. */
  lemma {:induction false} RestoredBySlot(view: View, file: File, slots: seq<Slot>, i: nat, reg: nat)
    requires reg in file
    ensures reg in Apply(file, Writes(view, slots))
    ensures LastToName(view, slots, i, reg) ==> Apply(file, Writes(view, slots))[reg] == slots[i].saved
    ensures (forall j :: 0 <= j < |slots| && slots[j].addr != 0 ==> view(slots[j].addr) != reg) ==>
              Apply(file, Writes(view, slots))[reg] == file[reg]
    decreases |slots|
  {
    if slots != [] {
      var n := |slots| - 1;
      var last := slots[n];
      var init := slots[..n];
      RestoredBySlot(view, file, init, i, reg);
      var own: seq<Write> := if last.addr != 0 then [(view(last.addr), last.saved)] else [];
      ApplyConcat(file, Writes(view, init), own);
      assert Apply(file, Writes(view, slots)) == Apply(Apply(file, Writes(view, init)), own);
      if last.addr != 0 {
        assert own[..0] == [];
        assert Apply(Apply(file, Writes(view, init)), own)
            == Apply(file, Writes(view, init))[view(last.addr) := last.saved];
      }
      if LastToName(view, slots, i, reg) && i < n {
        assert LastToName(view, init, i, reg);
      }
    }
  }

  /** nmi_cpu_save_registers. */
  method NmiCpuSaveRegisters(view: View, regs: Registers, counters: array<Slot>, controls: array<Slot>)
    requires counters != controls
    requires Present(view, regs.file, counters[..]) && Present(view, regs.file, controls[..])
    modifies counters, controls
    ensures counters[..] == Save(view, regs.file, old(counters[..]))
    ensures controls[..] == Save(view, regs.file, old(controls[..]))
  {
    SaveSlots(view, regs, counters);
    SaveSlots(view, regs, controls);
  }

  /** nmi_restore_registers: the controls go first. */
  method NmiRestoreRegisters(view: View, regs: Registers, counters: array<Slot>, controls: array<Slot>)
    requires Present(view, regs.file, counters[..]) && Present(view, regs.file, controls[..])
    modifies regs
    ensures regs.file == Apply(old(regs.file), Writes(view, controls[..]) + Writes(view, counters[..]))
    ensures regs.file.Keys == old(regs.file).Keys
  {
    RestoreSlots(view, regs, controls);
    RestoreSlots(view, regs, counters);
    ApplyConcat(old(regs.file), Writes(view, controls[..]), Writes(view, counters[..]));
  }

  // ---- a whole session ----

  /** One CPU: how it reaches the registers, and all its slots. */
  datatype Cpu = Cpu(view: View, slots: seq<Slot>)

  predicate Saves(c: Cpu, reg: nat) {
    exists i :: 0 <= i < |c.slots| && c.slots[i].addr != 0 && c.view(c.slots[i].addr) == reg
  }

  predicate Covered(cpus: seq<Cpu>, reg: nat) {
    exists c :: 0 <= c < |cpus| && Saves(cpus[c], reg)
  }

  predicate AllPresent(cpus: seq<Cpu>, file: File) {
    forall c :: 0 <= c < |cpus| ==> Present(cpus[c].view, file, cpus[c].slots)
  }

  predicate Puts(ws: seq<Write>, reg: nat) {
    exists k :: 0 <= k < |ws| && ws[k].0 == reg
  }

  /** Every write puts back the value that `file` holds. */
  predicate Replays(ws: seq<Write>, file: File) {
    forall k :: 0 <= k < |ws| ==> ws[k].0 in file && ws[k].1 == file[ws[k].0]
  }

  /** The writes of the restore phase: those of all CPUs after saving from `file`, in
    * whatever order and however often. */
  ghost predicate RestorePhase(cpus: seq<Cpu>, file: File, ws: seq<Write>) {
    Replays(ws, file) && forall reg :: Puts(ws, reg) <==> Covered(cpus, reg)
  }

  lemma {:induction false} ReplayedAt(init: File, now: File, ws: seq<Write>, reg: nat)
    requires now.Keys == init.Keys && reg in init && Replays(ws, init)
    ensures Apply(now, ws).Keys == init.Keys
    ensures Apply(now, ws)[reg] == if Puts(ws, reg) then init[reg] else now[reg]
  {
    if ws != [] {
      var n := |ws| - 1;
      ReplayedAt(init, now, ws[..n], reg);
      assert ws == ws[..n] + [ws[n]];
      PutsConcat(ws[..n], [ws[n]], reg);
      assert Puts([ws[n]], reg) <==> ws[n].0 == reg by {
        assert [ws[n]][0] == ws[n];
      }
    }
  }

  /** Putting back values of `init` restores it if and only if every register that has
    * changed is put back, in whatever order and however often. */
  lemma RestoredIffPut(init: File, now: File, ws: seq<Write>)
    requires now.Keys == init.Keys && Replays(ws, init)
    ensures Apply(now, ws) == init <==> forall reg :: reg in init && now[reg] != init[reg] ==> Puts(ws, reg)
  {
    forall reg | reg in init
      ensures Apply(now, ws).Keys == init.Keys
      ensures Apply(now, ws)[reg] == if Puts(ws, reg) then init[reg] else now[reg]
    {
      ReplayedAt(init, now, ws, reg);
    }
    if init.Keys == {} {
      assert now == init;
    } else {
      var reg :| reg in init.Keys;
      assert reg in init;
    }
  }

  /** The register file ends as it began if and only if every register that a session has
    * changed had been saved by some CPU: whichever CPUs share it, in whatever order the
    * CPUs restore, and with registers saved more than once. */
  lemma RestoredIffCovered(cpus: seq<Cpu>, init: File, now: File, ws: seq<Write>)
    requires now.Keys == init.Keys && RestorePhase(cpus, init, ws)
    ensures Apply(now, ws) == init <==> forall reg :: reg in init && now[reg] != init[reg] ==> Covered(cpus, reg)
  {
    RestoredIffPut(init, now, ws);
  }

  /** The writes of one CPU after another make such a phase. */
  function WritesOfAll(cpus: seq<Cpu>, file: File): seq<Write> {
    if cpus == [] then []
    else
      var last := cpus[|cpus| - 1];
      WritesOfAll(cpus[..|cpus| - 1], file) + Writes(last.view, Save(last.view, file, last.slots))
  }

  lemma PutsConcat(xs: seq<Write>, ys: seq<Write>, reg: nat)
    ensures Puts(xs + ys, reg) <==> Puts(xs, reg) || Puts(ys, reg)
  {
    if Puts(xs, reg) {
      var k :| 0 <= k < |xs| && xs[k].0 == reg;
      assert (xs + ys)[k].0 == reg;
    }
    if Puts(ys, reg) {
      var k :| 0 <= k < |ys| && ys[k].0 == reg;
      assert (xs + ys)[|xs| + k].0 == reg;
    }
  }

  lemma SavesStep(c: Cpu, reg: nat)
    requires c.slots != []
    ensures var n := |c.slots| - 1;
            Saves(c, reg) <==>
            || Saves(Cpu(c.view, c.slots[..n]), reg)
            || (c.slots[n].addr != 0 && c.view(c.slots[n].addr) == reg)
  {
    var n := |c.slots| - 1;
    var init := Cpu(c.view, c.slots[..n]);
    if Saves(init, reg) {
      var i :| 0 <= i < n && init.slots[i].addr != 0 && c.view(init.slots[i].addr) == reg;
      assert c.slots[i] == init.slots[i];
    }
    if Saves(c, reg) {
      var i :| 0 <= i <= n && c.slots[i].addr != 0 && c.view(c.slots[i].addr) == reg;
      assert i < n ==> init.slots[i] == c.slots[i];
    }
  }

  lemma {:induction false} WritesAreSaved(c: Cpu, file: File)
    requires Present(c.view, file, c.slots)
    ensures Replays(Writes(c.view, Save(c.view, file, c.slots)), file)
    ensures forall reg :: Puts(Writes(c.view, Save(c.view, file, c.slots)), reg) <==> Saves(c, reg)
    decreases |c.slots|
  {
    if c.slots != [] {
      var n := |c.slots| - 1;
      var init, last := Cpu(c.view, c.slots[..n]), c.slots[n];
      WritesAreSaved(init, file);
      assert Save(c.view, file, c.slots)[..n] == Save(c.view, file, init.slots);
      var before := Writes(c.view, Save(c.view, file, init.slots));
      var own: seq<Write> := if last.addr != 0 then [(c.view(last.addr), file[c.view(last.addr)])] else [];
      assert Writes(c.view, Save(c.view, file, c.slots)) == before + own;
      forall reg
        ensures Puts(before + own, reg) <==> Saves(c, reg)
      {
        PutsConcat(before, own, reg);
        SavesStep(c, reg);
        if last.addr != 0 {
          assert own[0].0 == c.view(last.addr);
        }
      }
    }
  }

  lemma CoveredStep(cpus: seq<Cpu>, reg: nat)
    requires cpus != []
    ensures var n := |cpus| - 1;
            Covered(cpus, reg) <==> Covered(cpus[..n], reg) || Saves(cpus[n], reg)
  {
    var n := |cpus| - 1;
    if Covered(cpus[..n], reg) {
      var c :| 0 <= c < n && Saves(cpus[..n][c], reg);
      assert Saves(cpus[c], reg);
    }
    if Covered(cpus, reg) {
      var c :| 0 <= c <= n && Saves(cpus[c], reg);
      assert c < n ==> Saves(cpus[..n][c], reg);
    }
  }

  lemma {:induction false} WritesOfAllRestore(cpus: seq<Cpu>, file: File)
    requires AllPresent(cpus, file)
    ensures RestorePhase(cpus, file, WritesOfAll(cpus, file))
  {
    if cpus != [] {
      var n := |cpus| - 1;
      WritesOfAllRestore(cpus[..n], file);
      WritesAreSaved(cpus[n], file);
      var before, own := WritesOfAll(cpus[..n], file), Writes(cpus[n].view, Save(cpus[n].view, file, cpus[n].slots));
      forall reg
        ensures Puts(before + own, reg) <==> Covered(cpus, reg)
      {
        PutsConcat(before, own, reg);
        CoveredStep(cpus, reg);
      }
    }
  }
}
