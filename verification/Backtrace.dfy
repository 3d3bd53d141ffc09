/** The frame-pointer walk that feeds a trace to the ring (x86/backtrace.c). */
module Backtrace {
  import opened Wrappers
  import opened EventStream
  import opened CpuBuffer
  import opened CpuRing

  const LIMIT_32 := 0x1_0000_0000

  /** struct frame_head: the caller's frame, and the return address. */
  datatype Frame = Frame(ebp: nat, ret: nat)

  /** What an interrupt leaves behind: `ia32` is the thread flag of a 32-bit task. */
  datatype Regs = Regs(userMode: bool, ia32: bool, framePointer: nat, stackPointer: nat)

  /** What is found at an address. The kernel reads its own stack directly; a user frame may
    * be out of reach. */
  datatype Memory = Memory(kernel: nat -> Frame, user64: nat -> Option<Frame>, user32: nat -> Option<Frame>,
                           threadSize: nat)

  /** One of the driver's walks: of the kernel stack between `stack` and `base`, or of user
    * frames of words below `limit`. */
  datatype Walk =
    | Kernel(frame: nat -> Frame, limit: nat, stack: nat, base: nat)
    | User(reach: nat -> Option<Frame>, limit: nat)

  /** One turn of a walk: nothing is found, or a return address is offered and the walk
    * ends, or goes on with another frame. */
  datatype Hop = Stop | Last(ret: nat) | On(ret: nat, next: nat)

  predicate ValidKernelStack(stack: nat, base: nat, head: nat) {
    stack < head < base
  }

  /** The end of the stack that holds `stack`, in the word size of the machine. */
  function StackBase(limit: nat, threadSize: nat, stack: nat): nat
    requires limit > 0 && threadSize > 0
  {
    (stack - stack % threadSize + threadSize) % limit
  }

  function HopOf(w: Walk, head: nat): Hop
    requires w.limit > 0
  {
    match w
    case Kernel(frame, limit, stack, base) =>
      var f := frame(head);
      if !ValidKernelStack(stack, base, head) then Stop
      else if head >= f.ebp % limit then Last(f.ret % limit)
      else On(f.ret % limit, f.ebp % limit)
    case User(reach, limit) =>
      if head == 0 || reach(head) == None || head >= reach(head).value.ebp % limit then Stop
      else On(reach(head).value.ret % limit, reach(head).value.ebp % limit)
  }

  /** The frames from which a return address is offered, however many there are. */
  function Frames(w: Walk, head: nat): (fs: seq<nat>)
    requires w.limit > 0
    decreases if head < w.limit then w.limit - head else 0, 1
  {
    match HopOf(w, head)
    case Stop => []
    case Last(_) => [head]
    case On(_, next) => [head] + Frames(w, next)
  }

  /** The return addresses of a chain of frames. */
  function Returns(w: Walk, head: nat): (rets: seq<nat>)
    requires w.limit > 0
    decreases if head < w.limit then w.limit - head else 0
  {
    match HopOf(w, head)
    case Stop => []
    case Last(ret) => [ret]
    case On(ret, next) => [ret] + Returns(w, next)
  }

  function Clip<T>(s: seq<T>, n: nat): seq<T> {
    if n < |s| then s[..n] else s
  }

  function WalkOf(a: Arch, regs: Regs, mem: Memory): (w: Walk)
    requires mem.threadSize > 0
    ensures w.limit > 0
  {
    if !regs.userMode then
      Kernel(mem.kernel, a.WordLimit(), regs.stackPointer, StackBase(a.WordLimit(), mem.threadSize, regs.stackPointer))
    else if a.Lp64? && !regs.ia32 then User(mem.user64, a.WordLimit())
    else User(mem.user32, LIMIT_32)
  }

  /** The frame pointer, cut to a word of the walk. */
  function HeadOf(a: Arch, regs: Regs, mem: Memory): nat
    requires mem.threadSize > 0
  {
    regs.framePointer % WalkOf(a, regs, mem).limit
  }

  // ---- the walk in the driver's form ----

  method DumpKernelBacktrace(ring: Ring, w: Walk, head: nat) returns (next: nat)
    requires ring.Valid() && w.Kernel? && w.limit > 0 && ValidKernelStack(w.stack, w.base, head)
    modifies ring, ring.buffer
    ensures ring.Valid() && ring.tailPos == old(ring.tailPos)
    ensures if next == 0 then HopOf(w, head).Last? else HopOf(w, head).On? && HopOf(w, head).next == next
    ensures ring.Abs() == CpuBuffer.AddTrace(ring.arch, old(ring.Abs()), HopOf(w, head).ret)
  {
    var f := w.frame(head);
    ring.AddTrace(f.ret % w.limit);
    if head >= f.ebp % w.limit {
      return 0;
    }
    return f.ebp % w.limit;
  }

  /** dump_user64_backtrace and dump_user32_backtrace, for the two widths. */
  method DumpUserBacktrace(ring: Ring, w: Walk, head: nat) returns (next: nat)
    requires ring.Valid() && w.User? && w.limit > 0 && head != 0
    modifies ring, ring.buffer
    ensures ring.Valid() && ring.tailPos == old(ring.tailPos)
    ensures if next == 0 then HopOf(w, head) == Stop else HopOf(w, head).On? && HopOf(w, head).next == next
    ensures ring.Abs() == if next == 0 then old(ring.Abs())
                          else CpuBuffer.AddTrace(ring.arch, old(ring.Abs()), HopOf(w, head).ret)
  {
    var found := w.reach(head);
    if found == None {
      return 0;
    }
    if head >= found.value.ebp % w.limit {
      return 0;
    }
    ring.AddTrace(found.value.ret % w.limit);
    return found.value.ebp % w.limit;
  }

  /** x86_backtrace. Neither loop needs the depth to end: the frames climb. */
  method X86Backtrace(ring: Ring, regs: Regs, mem: Memory, depth: nat)
    requires ring.Valid() && mem.threadSize > 0
    modifies ring, ring.buffer
    ensures ring.Valid() && ring.tailPos == old(ring.tailPos)
    ensures ring.Abs() == AddTraces(ring.arch, old(ring.Abs()),
      Clip(Returns(WalkOf(ring.arch, regs, mem), HeadOf(ring.arch, regs, mem)), depth))
    ensures forall fs, rets :: TrueChain(ring.arch, regs, mem, fs, rets) ==>
      ring.Abs() == AddTraces(ring.arch, old(ring.Abs()), Clip(rets, depth))
  {
    forall fs, rets | TrueChain(ring.arch, regs, mem, fs, rets)
      ensures rets == Returns(WalkOf(ring.arch, regs, mem), HeadOf(ring.arch, regs, mem))
    {
      OffersTheTrueChain(ring.arch, regs, mem, fs, rets);
    }
    var w, d := WalkOf(ring.arch, regs, mem), depth;
    var head: nat := regs.framePointer % w.limit;
    ghost var end := AddTraces(ring.arch, ring.Abs(), Clip(Returns(w, head), depth));
    if !regs.userMode {
      while d > 0 && ValidKernelStack(w.stack, w.base, head)
        invariant ring.Valid() && ring.tailPos == old(ring.tailPos)
        invariant end == AddTraces(ring.arch, ring.Abs(), Clip(Returns(w, head), d))
        decreases if ValidKernelStack(w.stack, w.base, head) then w.limit - head else 0
      {
        ghost var was := head;
        head := DumpKernelBacktrace(ring, w, head);
        ClipStep(w, was, d);
        d := d - 1;
      }
      return;
    }
    while d > 0 && head != 0
      invariant head < w.limit && ring.Valid() && ring.tailPos == old(ring.tailPos)
      invariant end == AddTraces(ring.arch, ring.Abs(), Clip(Returns(w, head), d))
      decreases if head == 0 then 0 else w.limit - head
    {
      ghost var was := head;
      head := DumpUserBacktrace(ring, w, head);
      ClipStep(w, was, d);
      d := d - 1;
    }
  }

  lemma ClipStep(w: Walk, head: nat, d: nat)
    requires w.limit > 0 && d > 0
    ensures match HopOf(w, head)
            case Stop => Clip(Returns(w, head), d) == [] && Clip(Returns(w, 0), d - 1) == []
            case Last(ret) =>
              && Clip(Returns(w, head), d)[..1] == [ret] && Clip(Returns(w, head), d)[1..] == []
              && Clip(Returns(w, 0), d - 1) == []
            case On(ret, next) =>
              && Clip(Returns(w, head), d)[..1] == [ret]
              && Clip(Returns(w, head), d)[1..] == Clip(Returns(w, next), d - 1)
  {
  }

  // ---- what the walk visits, and what is logged of it ----

  predicate Linked(w: Walk, fs: seq<nat>, rets: seq<nat>, i: nat)
    requires w.limit > 0 && |fs| == |rets| && i < |fs| - 1
  {
    HopOf(w, fs[i]) == On(rets[i], fs[i + 1])
  }

  /** `fs` and `rets` are the frames and the return addresses of the chain from `head`, all
    * of it: each frame holds the address of the next, and after the last there is none. */
  predicate IsChain(w: Walk, head: nat, fs: seq<nat>, rets: seq<nat>)
    requires w.limit > 0
  {
    && |fs| == |rets|
    && (fs != [] ==> fs[0] == head)
    && (forall i :: 0 <= i < |fs| - 1 ==> Linked(w, fs, rets, i))
    && if fs == [] then HopOf(w, head) == Stop
       else
         var hop := HopOf(w, fs[|fs| - 1]);
         hop != Stop && hop.ret == rets[|fs| - 1] && (hop.On? ==> HopOf(w, hop.next) == Stop)
  }

  /** The walk offers the return addresses of the whole chain, and nothing else is one. */
  lemma {:induction false} ReturnsAreTheChain(w: Walk, head: nat, fs: seq<nat>, rets: seq<nat>)
    requires w.limit > 0
    ensures IsChain(w, head, fs, rets) <==> fs == Frames(w, head) && rets == Returns(w, head)
    decreases if head < w.limit then w.limit - head else 0, 1
  {
    var hop := HopOf(w, head);
    if hop.On? {
      assert ([head] + Frames(w, hop.next))[1..] == Frames(w, hop.next);
      assert ([hop.ret] + Returns(w, hop.next))[1..] == Returns(w, hop.next);
      if |fs| > 0 && |rets| > 0 {
        assert fs == [fs[0]] + fs[1..] && rets == [rets[0]] + rets[1..];
        ReturnsAreTheChain(w, hop.next, fs[1..], rets[1..]);
      }
      ChainGrows(w, head, fs, rets);
    } else if |fs| > 1 && |fs| == |rets| && fs[0] == head {
      assert !Linked(w, fs, rets, 0);
    }
  }

  lemma ChainGrows(w: Walk, head: nat, fs: seq<nat>, rets: seq<nat>)
    requires w.limit > 0 && HopOf(w, head).On?
    ensures var hop := HopOf(w, head);
            IsChain(w, head, fs, rets) <==>
            |fs| > 0 && |rets| > 0 && fs[0] == head && rets[0] == hop.ret && IsChain(w, hop.next, fs[1..], rets[1..])
  {
    var hop := HopOf(w, head);
    if |fs| > 1 && |fs| == |rets| {
      var fs', rets' := fs[1..], rets[1..];
      assert forall i :: 0 <= i < |fs'| - 1 ==> (Linked(w, fs', rets', i) <==> Linked(w, fs, rets, i + 1));
      assert forall i :: 0 < i < |fs| - 1 ==> (Linked(w, fs, rets, i) <==> Linked(w, fs', rets', i - 1));
      if IsChain(w, head, fs, rets) {
        assert Linked(w, fs, rets, 0);
      }
      if fs[0] == head && rets[0] == hop.ret && IsChain(w, hop.next, fs', rets') {
        assert Linked(w, fs, rets, 0);
      }
    }
  }

  // ---- the same, said of memory and registers alone ----

  /** `fs` are the frames from `head` on that can be read and whose links ascend, linked to each
    * other, and `rets` their return addresses, all cut to words below `limit`; the chain ends
    * where a frame cannot be read or does not link upwards. */
  predicate UserChain(read: nat -> Option<Frame>, limit: nat, head: nat, fs: seq<nat>, rets: seq<nat>)
    requires limit > 0
  {
    && |fs| == |rets|
    && (forall i :: 0 <= i < |fs| ==> UserFrame(read, limit, fs[i], rets[i]))
    && (forall i :: 0 <= i < |fs| - 1 ==> fs[i + 1] == read(fs[i]).value.ebp % limit)
    && (fs != [] ==> fs[0] == head)
    && var end := if fs == [] then head else read(fs[|fs| - 1]).value.ebp % limit;
       end == 0 || read(end) == None || read(end).value.ebp % limit <= end
  }

  predicate UserFrame(read: nat -> Option<Frame>, limit: nat, f: nat, ret: nat)
    requires limit > 0
  {
    f != 0 && read(f).Some? && f < read(f).value.ebp % limit && ret == read(f).value.ret % limit
  }

  /** The same on a kernel stack, above the stack pointer and below the end of its block; the
    * last frame need not link upwards. */
  predicate KernelChain(read: nat -> Frame, limit: nat, stack: nat, block: nat, head: nat, fs: seq<nat>, rets: seq<nat>)
    requires limit > 0 && block > 0
  {
    var base := (stack / block * block + block) % limit;
    && |fs| == |rets|
    && (forall i :: 0 <= i < |fs| ==> stack < fs[i] < base && rets[i] == read(fs[i]).ret % limit)
    && (forall i :: 0 <= i < |fs| - 1 ==> fs[i] < fs[i + 1] == read(fs[i]).ebp % limit)
    && (fs != [] ==> fs[0] == head)
    && if fs == [] then !(stack < head < base)
       else
         var last := fs[|fs| - 1];
         var end := read(last).ebp % limit;
         end <= last || !(stack < end < base)
  }

  /** The chain that an interrupt leaves: of the kernel's own stack, of 64-bit user frames, or,
    * for a 32-bit task or machine, of 32-bit ones. */
  predicate TrueChain(a: Arch, regs: Regs, mem: Memory, fs: seq<nat>, rets: seq<nat>)
    requires mem.threadSize > 0
  {
    var word := if a.Ilp32? then 0x1_0000_0000 else 0x1_0000_0000_0000_0000;
    if !regs.userMode then
      KernelChain(mem.kernel, word, regs.stackPointer, mem.threadSize, regs.framePointer % word, fs, rets)
    else if a.Ilp32? || regs.ia32 then
      UserChain(mem.user32, 0x1_0000_0000, regs.framePointer % 0x1_0000_0000, fs, rets)
    else
      UserChain(mem.user64, 0x1_0000_0000_0000_0000, regs.framePointer % 0x1_0000_0000_0000_0000, fs, rets)
  }

  lemma UserChainIs(read: nat -> Option<Frame>, limit: nat, head: nat, fs: seq<nat>, rets: seq<nat>)
    requires limit > 0
    ensures UserChain(read, limit, head, fs, rets) <==> IsChain(User(read, limit), head, fs, rets)
  {
    var w := User(read, limit);
    if UserChain(read, limit, head, fs, rets) {
      forall i | 0 <= i < |fs| - 1
        ensures Linked(w, fs, rets, i)
      {
        assert UserFrame(read, limit, fs[i], rets[i]);
      }
      if fs != [] {
        assert UserFrame(read, limit, fs[|fs| - 1], rets[|fs| - 1]);
      }
    }
    if IsChain(w, head, fs, rets) {
      forall i | 0 <= i < |fs|
        ensures UserFrame(read, limit, fs[i], rets[i])
        ensures i < |fs| - 1 ==> fs[i + 1] == read(fs[i]).value.ebp % limit
      {
        if i < |fs| - 1 {
          assert Linked(w, fs, rets, i);
        }
      }
    }
  }

  lemma KernelChainIs(read: nat -> Frame, limit: nat, stack: nat, block: nat, head: nat, fs: seq<nat>, rets: seq<nat>)
    requires limit > 0 && block > 0
    ensures KernelChain(read, limit, stack, block, head, fs, rets)
            <==> IsChain(Kernel(read, limit, stack, StackBase(limit, block, stack)), head, fs, rets)
  {
    var base := StackBase(limit, block, stack);
    BlockEnd(stack, block);
    var w := Kernel(read, limit, stack, base);
    if KernelChain(read, limit, stack, block, head, fs, rets) {
      forall i | 0 <= i < |fs| - 1
        ensures Linked(w, fs, rets, i)
      {
        assert stack < fs[i] < base && fs[i] < fs[i + 1];
      }
    }
    if IsChain(w, head, fs, rets) {
      forall i | 0 <= i < |fs|
        ensures stack < fs[i] < base && rets[i] == read(fs[i]).ret % limit
        ensures i < |fs| - 1 ==> fs[i] < fs[i + 1] == read(fs[i]).ebp % limit
      {
        if i < |fs| - 1 {
          assert Linked(w, fs, rets, i);
        }
      }
    }
  }

  lemma BlockEnd(stack: nat, block: nat)
    requires block > 0
    ensures stack - stack % block == stack / block * block
  {
  }

  /** Every interrupt leaves exactly one such chain, and its return addresses are what the walk
    * offers. */
  lemma OffersTheTrueChain(a: Arch, regs: Regs, mem: Memory, fs: seq<nat>, rets: seq<nat>)
    requires mem.threadSize > 0
    ensures var w, head := WalkOf(a, regs, mem), HeadOf(a, regs, mem);
            TrueChain(a, regs, mem, fs, rets) <==> fs == Frames(w, head) && rets == Returns(w, head)
  {
    var w, head := WalkOf(a, regs, mem), HeadOf(a, regs, mem);
    ReturnsAreTheChain(w, head, fs, rets);
    if !regs.userMode {
      KernelChainIs(mem.kernel, a.WordLimit(), regs.stackPointer, mem.threadSize, head, fs, rets);
    } else if a.Ilp32? || regs.ia32 {
      UserChainIs(mem.user32, LIMIT_32, head, fs, rets);
    } else {
      UserChainIs(mem.user64, a.WordLimit(), head, fs, rets);
    }
  }

  /** For every content of memory the frames strictly ascend, those of a kernel walk inside
    * one stack: there are fewer of them than the stack has addresses. */
  lemma {:induction false} FramesClimb(w: Walk, head: nat)
    requires w.limit > 0
    ensures forall i, j :: 0 <= i < j < |Frames(w, head)| ==> Frames(w, head)[i] < Frames(w, head)[j]
    ensures forall i :: 0 <= i < |Frames(w, head)| ==> head <= Frames(w, head)[i]
    ensures w.Kernel? ==> forall i :: 0 <= i < |Frames(w, head)| ==> w.stack < Frames(w, head)[i] < w.base
    ensures w.Kernel? && Frames(w, head) != [] ==> |Frames(w, head)| <= w.base - head
    decreases if head < w.limit then w.limit - head else 0
  {
    var hop := HopOf(w, head);
    if hop.On? {
      FramesClimb(w, hop.next);
      var rest := Frames(w, hop.next);
      assert Frames(w, head) == [head] + rest;
    }
  }

  /** What of a walk gets into a ring with `free` slots: the first return addresses of the
    * chain, up to the depth, the room left, or the first that looks like an escape code. */
  lemma WhatIsLogged(a: Arch, q: Queue, w: Walk, head: nat, depth: nat) returns (l: seq<nat>)
    requires w.limit > 0 && q.Free() >= 0 && q.tracing
    ensures AddTraces(a, q, Clip(Returns(w, head), depth)).pending == q.pending + ChainEntries(l)
    ensures l <= Returns(w, head) && |l| <= depth && |l| <= q.Free() && a.Escape() !in l
    ensures |l| < |Returns(w, head)| ==> |l| == depth || |l| == q.Free() || Returns(w, head)[|l|] == a.Escape()
  {
    AddTracesFits(a, q, Clip(Returns(w, head), depth));
    l := LoggedChain(a, Clip(Returns(w, head), depth), q.Free());
  }
}
