/** The bounded word buffer between sync_buffer and the daemon's read (driver/event_buffer.c).
  *
  * `Buffer` and the functions on it are the specification; the class does the same in
  * place. `Run` adds up what went in and what came out over any sequence of operations. */
module EventBuffer {
  datatype Buffer = Buffer(size: nat, watershed: nat, contents: seq<nat>, ready: bool, dump: bool, lost: nat)

  /** What alloc_event_buffer makes sure of, and add_event_entry keeps. */
  predicate WellFormed(b: Buffer) {
    b.watershed < b.size && |b.contents| <= b.size
  }

  function AddEntry(b: Buffer, w: nat): Buffer {
    if |b.contents| == b.size then b.(lost := b.lost + 1)
    else b.(contents := b.contents + [w], ready := b.ready || |b.contents| + 1 == b.size - b.watershed)
  }

  function AddEntries(b: Buffer, ws: seq<nat>): Buffer
    decreases |ws|
  {
    if ws == [] then b else AddEntries(AddEntry(b, ws[0]), ws[1..])
  }

  function WakeUp(b: Buffer): Buffer { b.(ready := true, dump := true) }

  datatype ReadResult = Words(words: seq<nat>) | Waits | Einval | Eintr | Eagain | Efault

  /** One read(): `words` is the number of words asked for. A reader that has to wait leaves
    * everything as it was. */
  function Read(b: Buffer, words: nat, offset: nat, signal: bool, copyOk: bool): (Buffer, ReadResult) {
    if words != b.size || offset != 0 then (b, Einval)
    else if signal then (b, Eintr)
    else if !b.ready then (b, if b.dump then Eagain else Waits)
    else if !copyOk then (b.(ready := false), Efault)
    else (b.(ready := false, contents := []), Words(b.contents))
  }

  class EventBuffer {
    var eventBuffer: array<nat>
    var bufferSize: nat
    var bufferWatershed: nat
    var bufferPos: nat
    var bufferReady: bool
    var bufferDump: bool
    var eventLostOverflow: nat

    ghost predicate Valid()
      reads this
    {
      eventBuffer.Length == bufferSize && bufferPos <= bufferSize && bufferWatershed < bufferSize
    }

    ghost function Abs(): (b: Buffer)
      reads this, eventBuffer
      requires Valid()
      ensures WellFormed(b)
    {
      Buffer(bufferSize, bufferWatershed, eventBuffer[..bufferPos], bufferReady, bufferDump, eventLostOverflow)
    }

    /** The state alloc_event_buffer leaves when it succeeds on a buffer just opened. */
    constructor (size: nat, watershed: nat)
      requires watershed < size
      ensures Valid() && fresh(eventBuffer)
      ensures Abs() == Buffer(size, watershed, [], false, false, 0)
    {
      eventBuffer := new nat[size](_ => 0);
      bufferSize, bufferWatershed, bufferPos := size, watershed, 0;
      bufferReady, bufferDump, eventLostOverflow := false, false, 0;
    }

    method AddEventEntry(value: nat)
      requires Valid()
      modifies this`bufferPos, this`bufferReady, this`eventLostOverflow, eventBuffer
      ensures Valid() && Abs() == AddEntry(old(Abs()), value)
    {
      if bufferPos == bufferSize {
        eventLostOverflow := eventLostOverflow + 1;
        return;
      }
      eventBuffer[bufferPos] := value;
      bufferPos := bufferPos + 1;
      if bufferPos == bufferSize - bufferWatershed {
        bufferReady := true;
      }
    }

    method AddEventEntries(values: seq<nat>)
      requires Valid()
      modifies this`bufferPos, this`bufferReady, this`eventLostOverflow, eventBuffer
      ensures Valid() && Abs() == AddEntries(old(Abs()), values)
    {
      for i := 0 to |values|
        invariant Valid()
        invariant AddEntries(Abs(), values[i..]) == AddEntries(old(Abs()), values)
      {
        AddEventEntry(values[i]);
        assert values[i..][1..] == values[i + 1..];
      }
    }

    method WakeUpBufferWaiter()
      requires Valid()
      modifies this`bufferReady, this`bufferDump
      ensures Valid() && Abs() == WakeUp(old(Abs()))
    {
      bufferReady := true;
      bufferDump := true;
    }

    method ReadWords(words: nat, offset: nat, signal: bool, copyOk: bool) returns (r: ReadResult)
      requires Valid()
      modifies this`bufferReady, this`bufferPos
      ensures Valid() && (Abs(), r) == Read(old(Abs()), words, offset, signal, copyOk)
    {
      if words != bufferSize || offset != 0 {
        return Einval;
      }
      if !bufferDump && !bufferReady && !signal {
        return Waits;
      }
      if signal {
        return Eintr;
      }
      if !bufferReady {
        return Eagain;
      }
      bufferReady := false;
      if !copyOk {
        return Efault;
      }
      r := Words(eventBuffer[..bufferPos]);
      bufferPos := 0;
    }
  }

  /** When a read comes to what: asked for anything but the whole buffer it is refused, then a
    * signal ends it, it waits if nothing is announced and no stop has come, and it hands over
    * what there is if it is announced and the copy succeeds. */
  lemma ReadOutcome(b: Buffer, words: nat, offset: nat, signal: bool, copyOk: bool)
    ensures var (b', r) := Read(b, words, offset, signal, copyOk);
            var whole := words == b.size && offset == 0;
            && (r == Einval <==> !whole)
            && (r == Eintr <==> whole && signal)
            && (r == Waits <==> whole && !signal && !b.ready && !b.dump)
            && (r == Eagain <==> whole && !signal && !b.ready && b.dump)
            && (r == Efault <==> whole && !signal && b.ready && !copyOk)
            && (r.Words? <==> whole && !signal && b.ready && copyOk)
            && (r.Words? ==> r.words == b.contents && b' == b.(ready := false, contents := []))
            && (r == Efault ==> b' == b.(ready := false))
            && (!r.Words? && r != Efault ==> b' == b)
  {
  }

  /** After a wake a read of the whole buffer hands over what is left, however little. */
  lemma WakeHandsOver(b: Buffer, ws: seq<nat>)
    ensures Read(AddEntries(WakeUp(b), ws), b.size, 0, false, true).1
         == Words(AddEntries(b, ws).contents)
    decreases |ws|
  {
    WokenStaysReady(b, ws);
  }

  lemma {:induction false} WokenStaysReady(b: Buffer, ws: seq<nat>)
    ensures var b', w := AddEntries(b, ws), AddEntries(WakeUp(b), ws);
            w.ready && w.dump && w.contents == b'.contents && w.size == b.size
    decreases |ws|
  {
    if ws != [] {
      var b1 := AddEntry(b, ws[0]);
      assert AddEntry(WakeUp(b), ws[0]) == WakeUp(b1);
      WokenStaysReady(b1, ws[1..]);
    }
  }

  /** The flag goes up with the word that reaches the watershed, and with no other. */
  lemma {:induction false} ReadyIffReached(b: Buffer, ws: seq<nat>)
    requires WellFormed(b)
    ensures AddEntries(b, ws).ready <==>
              b.ready || |b.contents| < b.size - b.watershed <= |b.contents| + |ws|
    ensures WellFormed(AddEntries(b, ws))
    decreases |ws|
  {
    if ws != [] {
      ReadyIffReached(AddEntry(b, ws[0]), ws[1..]);
    }
  }

  // ---- what holds over whole runs ----

  /** A release clears the flag for the reader and a setup does not, so it is set after an
    * opening if the reader was `woken` in between. */
  datatype Op =
    | Emit(word: nat)
    | Wake
    | Reading(words: nat, offset: nat, signal: bool, copyOk: bool)
    | StatsReset
    | Started        // a successful start: buffer_dump is cleared
    | Reopened(size: nat, watershed: nat, woken: bool)   // release, then a setup that succeeds

  /** The buffer with a record of all that went in and out: `emitted` since the beginning,
    * `since` the last drain, `delivered` to the reader with the words that were `due` each
    * time, `discarded` at a release, `dropped` since the beginning, and the drops at the
    * last reset of the statistics. */
  datatype Run = Run(b: Buffer, emitted: seq<nat>, since: seq<nat>,
                     delivered: seq<seq<nat>>, due: seq<seq<nat>>, discarded: nat,
                     dropped: nat, droppedAtReset: nat)

  predicate Allowed(op: Op) { op.Reopened? ==> op.watershed < op.size }

  /** The longest prefix of `ws` that fits. */
  function Fit(size: nat, ws: seq<nat>): seq<nat> { if |ws| <= size then ws else ws[..size] }

  function Total(xs: seq<seq<nat>>): nat {
    if xs == [] then 0 else Total(xs[..|xs| - 1]) + |xs[|xs| - 1]|
  }

  function Step(s: Run, op: Op): Run
    requires Allowed(op)
  {
    match op
    case Emit(w) =>
      s.(b := AddEntry(s.b, w), emitted := s.emitted + [w], since := s.since + [w],
         dropped := if |s.b.contents| == s.b.size then s.dropped + 1 else s.dropped)
    case Wake => s.(b := WakeUp(s.b))
    case Reading(n, o, signal, copyOk) =>
      var (b, r) := Read(s.b, n, o, signal, copyOk);
      if r.Words? then s.(b := b, since := [], delivered := s.delivered + [r.words], due := s.due + [s.since])
      else s.(b := b)
    case StatsReset => s.(b := s.b.(lost := 0), droppedAtReset := s.dropped)
    case Started => s.(b := s.b.(dump := false))
    case Reopened(size, watershed, woken) =>
      s.(b := Buffer(size, watershed, [], woken, false, s.b.lost), since := [],
         discarded := s.discarded + |s.b.contents|)
  }

  function Start(size: nat, watershed: nat): Run {
    Run(Buffer(size, watershed, [], false, false, 0), [], [], [], [], 0, 0, 0)
  }

  function Steps(s: Run, ops: seq<Op>): Run
    requires forall op :: op in ops ==> Allowed(op)
  {
    if ops == [] then s else Step(Steps(s, ops[..|ops| - 1]), ops[|ops| - 1])
  }

  ghost predicate Balanced(s: Run) {
    && WellFormed(s.b)
    && s.b.contents == Fit(s.b.size, s.since)
    && s.droppedAtReset <= s.dropped && s.b.lost == s.dropped - s.droppedAtReset
    && Total(s.delivered) + |s.b.contents| + s.discarded + s.dropped == |s.emitted|
    && |s.delivered| == |s.due|
    && (forall i :: 0 <= i < |s.delivered| ==> s.delivered[i] <= s.due[i])
  }

  lemma StepBalanced(s: Run, op: Op)
    requires Balanced(s) && Allowed(op)
    ensures Balanced(Step(s, op))
  {
    var s' := Step(s, op);
    if s'.delivered != s.delivered {
      assert s'.delivered[..|s'.delivered| - 1] == s.delivered;
    }
  }

  /** Loss accounting: whatever happens, the buffer holds the longest fitting prefix of the
    * words emitted since it was last emptied, event_lost_overflow counts the words dropped
    * since the statistics were reset, each read hands over a prefix of the words that were
    * due, and delivered, buffered, discarded and dropped words add up to all those emitted. */
  lemma {:induction false} LossAccounting(size: nat, watershed: nat, ops: seq<Op>)
    requires watershed < size && forall op :: op in ops ==> Allowed(op)
    ensures Balanced(Steps(Start(size, watershed), ops))
  {
    if ops != [] {
      LossAccounting(size, watershed, ops[..|ops| - 1]);
      StepBalanced(Steps(Start(size, watershed), ops[..|ops| - 1]), ops[|ops| - 1]);
    }
  }

  /** The reader has been woken if the watershed has been reached. */
  predicate Announced(b: Buffer) {
    |b.contents| >= b.size - b.watershed ==> b.ready
  }

  /** A copy to the reader that fails at or past the watershed: the one operation that
    * leaves a full buffer unannounced. */
  predicate FailsPastWatershed(b: Buffer, op: Op) {
    && op.Reading? && !op.copyOk && !op.signal && op.words == b.size && op.offset == 0
    && b.ready && |b.contents| >= b.size - b.watershed
  }

  lemma AnnouncedStep(s: Run, op: Op)
    requires WellFormed(s.b) && Announced(s.b) && Allowed(op)
    ensures Announced(Step(s, op).b) <==> !FailsPastWatershed(s.b, op)
    ensures WellFormed(Step(s, op).b)
  {
  }

  /** A buffer of two words with a watershed of one: the first word wakes the reader, whose
    * copy fails, and nobody is told of the buffer any more. */
  lemma FailedCopyUnannounces()
    ensures var ops := [Emit(5), Reading(2, 0, false, false)];
            && (forall op :: op in ops ==> Allowed(op))
            && Announced(Steps(Start(2, 1), ops[..1]).b) && !Announced(Steps(Start(2, 1), ops).b)
  {
    var ops := [Emit(5), Reading(2, 0, false, false)];
    assert ops[..1][..0] == [] && ops[..|ops| - 1] == ops[..1];
    var s := Start(2, 1);
    assert Steps(s, ops[..1]) == Step(s, Emit(5));
    assert Steps(s, ops) == Step(Step(s, Emit(5)), Reading(2, 0, false, false));
  }

  /** Once unannounced, more words never help: the test is for equality. */
  lemma {:induction false} StaysUnannounced(b: Buffer, ws: seq<nat>)
    requires WellFormed(b) && !Announced(b)
    ensures !Announced(AddEntries(b, ws)) && WellFormed(AddEntries(b, ws))
    decreases |ws|
  {
    if ws != [] {
      StaysUnannounced(AddEntry(b, ws[0]), ws[1..]);
    }
  }

  /** No missed wakeup: as long as copies to the reader succeed, no reachable buffer has
    * reached its watershed without the reader being told, although only the word that
    * reaches it exactly sets the flag. */
  lemma {:induction false} NoMissedWakeup(size: nat, watershed: nat, ops: seq<Op>)
    requires watershed < size && forall op :: op in ops ==> Allowed(op)
    requires forall op :: op in ops && op.Reading? ==> op.copyOk
    ensures Announced(Steps(Start(size, watershed), ops).b) && WellFormed(Steps(Start(size, watershed), ops).b)
  {
    if ops != [] {
      NoMissedWakeup(size, watershed, ops[..|ops| - 1]);
      AnnouncedStep(Steps(Start(size, watershed), ops[..|ops| - 1]), ops[|ops| - 1]);
    }
  }

  /** Nobody has been told of a buffer below its watershed. */
  predicate NotEarly(b: Buffer) {
    |b.contents| < b.size - b.watershed ==> !b.ready
  }

  lemma NotEarlyStep(s: Run, op: Op)
    requires WellFormed(s.b) && NotEarly(s.b) && Allowed(op) && !op.Wake? && (op.Reopened? ==> !op.woken)
    ensures NotEarly(Step(s, op).b) && WellFormed(Step(s, op).b)
  {
  }

  /** Nobody is told too early: with no wake, every reachable buffer below its watershed has
    * the flag clear. */
  lemma {:induction false} NoEarlyWakeup(size: nat, watershed: nat, ops: seq<Op>)
    requires watershed < size && forall op :: op in ops ==> Allowed(op)
    requires forall op :: op in ops ==> !op.Wake? && (op.Reopened? ==> !op.woken)
    ensures NotEarly(Steps(Start(size, watershed), ops).b) && WellFormed(Steps(Start(size, watershed), ops).b)
  {
    if ops != [] {
      NoEarlyWakeup(size, watershed, ops[..|ops| - 1]);
      NotEarlyStep(Steps(Start(size, watershed), ops[..|ops| - 1]), ops[|ops| - 1]);
    }
  }

  /** After a stop has woken the reader, no read waits until a start or a setup. */
  lemma {:induction false} NoWaitAfterStop(s: Run, ops: seq<Op>, words: nat, offset: nat, signal: bool, copyOk: bool)
    requires forall op :: op in ops ==> Allowed(op) && !op.Started? && !op.Reopened?
    ensures Steps(Step(s, Wake), ops).b.dump
    ensures Read(Steps(Step(s, Wake), ops).b, words, offset, signal, copyOk).1 != Waits
  {
    if ops != [] {
      NoWaitAfterStop(s, ops[..|ops| - 1], words, offset, signal, copyOk);
    }
  }

  lemma {:induction false} AddEntriesFit(b: Buffer, since: seq<nat>, ws: seq<nat>)
    requires WellFormed(b) && b.contents == Fit(b.size, since)
    ensures var b' := AddEntries(b, ws);
            && b'.contents == Fit(b.size, since + ws)
            && b'.size == b.size && b'.watershed == b.watershed && b'.dump == b.dump
            && b'.lost == b.lost + (|since + ws| - |Fit(b.size, since + ws)|) - (|since| - |b.contents|)
    decreases |ws|
  {
    if ws == [] {
      assert since + ws == since;
    } else {
      AddEntriesFit(AddEntry(b, ws[0]), since + [ws[0]], ws[1..]);
      assert since + ws == since + [ws[0]] + ws[1..];
    }
  }

  lemma {:induction false} AddEntriesConcat(b: Buffer, xs: seq<nat>, ys: seq<nat>)
    ensures AddEntries(AddEntries(b, xs), ys) == AddEntries(b, xs + ys)
    decreases |xs|
  {
    if xs == [] {
      assert xs + ys == ys;
    } else {
      AddEntriesConcat(AddEntry(b, xs[0]), xs[1..], ys);
      assert (xs + ys)[1..] == xs[1..] + ys;
    }
  }
}
