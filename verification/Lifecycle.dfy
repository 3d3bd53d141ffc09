/** Setup, start, adapt, stop and shutdown (driver/oprof.c), behind the opening and closing of
  * the event buffer file and the writes to the control files. */
module Lifecycle {
  import opened Wrappers
  import opened Numbers
  import opened Session

  datatype Backend = ArchOps | TimerOps

  /** What a backend has been asked to do with success. */
  datatype Act =
    | SetUp(backend: Backend)
    | ShutDown(backend: Backend)
    | Started(backend: Backend)
    | Stopped(backend: Backend)

  /** The other numbers that can be set: the backtrace depth and the sizes that the next
    * setup will allocate. */
  datatype Tunables = Tunables(depth: nat, bufferSize: nat, watershed: nat, ringSize: nat)
  datatype Tunable = Depth | BufferSize | Watershed | RingSize

  /** `rings` and `events` say whether the CPU buffers and the event buffer are allocated,
    * `traces` whether there is a backtrace operation, which the backends have in common. */
  datatype Driver = Driver(isOpen: bool, isSetup: bool, started: bool, ops: Backend, hasArch: bool, traces: bool,
                           rings: bool, events: bool, config: seq<Counter>, tunables: Tunables, timerCount: nat,
                           acts: seq<Act>)

  /** How the steps outside the driver's control turn out. */
  datatype Outcome = Outcome(capable: bool, ringsAllocated: bool, eventsAllocated: bool, backendReady: bool)

  datatype Op =
    | Open(outcome: Outcome)
    | Release
    | Start(ok: bool)
    | Stop
    | Adapt(ok: bool)
    | SetCounter(i: nat, c: Counter)
    | SetTunable(t: Tunable, n: nat)
    | SetTimerCount(n: nat)

  function Did(d: Driver, act: Act): Driver { d.(acts := d.acts + [act]) }

  function SetupStep(d: Driver, o: Outcome): (Driver, bool) {
    if !o.ringsAllocated || d.tunables.watershed >= d.tunables.bufferSize || !o.eventsAllocated || !o.backendReady
    then (d.(rings := false, events := false), false)
    else (Did(d, SetUp(d.ops)).(rings := true, events := true, isSetup := true), true)
  }

  function OpenStep(d: Driver, o: Outcome): Driver {
    if !o.capable || d.isOpen then d
    else
      var (d', ok) := SetupStep(d.(isOpen := true), o);
      d'.(isOpen := ok)
  }

  function StartStep(d: Driver, ok: bool): Driver {
    if !d.isSetup || d.started || !ok then d else Did(d, Started(d.ops)).(started := true)
  }

  function StopStep(d: Driver): Driver {
    if !d.started then d else Did(d, Stopped(d.ops)).(started := false)
  }

  function ScaledConfig(ops: Backend, config: seq<Counter>): seq<Counter> {
    if ops == ArchOps && CanScale(config) then Scale(config) else config
  }

  function ScaledTimer(ops: Backend, count: nat): nat {
    if ops == TimerOps && count < MAX_COUNTER_VALUE then count * ADAPT_DECAY_FACTOR else count
  }

  /** The adapt operation of the backend in use. */
  function ScaleStep(d: Driver): Driver {
    d.(config := ScaledConfig(d.ops, d.config), timerCount := ScaledTimer(d.ops, d.timerCount))
  }

  function AdaptStep(d: Driver, ok: bool): Driver {
    if !d.started then d
    else
      var d' := ScaleStep(Did(d, Stopped(d.ops)));
      if ok then Did(d', Started(d'.ops)) else d'.(started := false)
  }

  function ShutdownStep(d: Driver): Driver {
    Did(d, ShutDown(d.ops)).(isSetup := false, rings := false, events := false)
  }

  function ReleaseStep(d: Driver): Driver {
    ShutdownStep(StopStep(d)).(isOpen := false)
  }

  function SetCounterStep(d: Driver, i: nat, c: Counter): Driver {
    if d.started || i >= |d.config| then d else d.(config := d.config[i := c])
  }

  function With(z: Tunables, t: Tunable, n: nat): Tunables {
    match t
    case Depth => z.(depth := n)
    case BufferSize => z.(bufferSize := n)
    case Watershed => z.(watershed := n)
    case RingSize => z.(ringSize := n)
  }

  /** oprofile_set_ulong. */
  function TuneStep(d: Driver, t: Tunable, n: nat): Driver {
    if d.started then d else d.(tunables := With(d.tunables, t, n))
  }

  /** The depth is refused while the file is open, and if there are no backtraces. */
  function SetTunableStep(d: Driver, t: Tunable, n: nat): Driver {
    if t.Depth? && (d.isOpen || !d.traces) then d else TuneStep(d, t, n)
  }

  /** oprofile_set_oprofile_timer_count, which does not look at whether the file is open. */
  function SwitchStep(d: Driver, n: nat): Driver {
    if d.started then d
    else if n == 0 && d.hasArch then d.(ops := ArchOps, timerCount := 0)
    else d.(ops := TimerOps, timerCount := n)
  }

  function SetTimerCountStep(d: Driver, n: nat): Driver {
    if d.isOpen then d else SwitchStep(d, n)
  }

  /** The file is released only by whoever has it open. */
  predicate Enabled(d: Driver, op: Op) { op.Release? ==> d.isOpen }

  function Step(d: Driver, op: Op): Driver
    requires Enabled(d, op)
  {
    match op
    case Open(o) => OpenStep(d, o)
    case Release => ReleaseStep(d)
    case Start(ok) => StartStep(d, ok)
    case Stop => StopStep(d)
    case Adapt(ok) => AdaptStep(d, ok)
    case SetCounter(i, c) => SetCounterStep(d, i, c)
    case SetTunable(t, n) => SetTunableStep(d, t, n)
    case SetTimerCount(n) => SetTimerCountStep(d, n)
  }

  class Oprofile {
    var isOpen: bool
    var isSetup: bool
    var started: bool
    var ops: Backend
    const hasArch: bool
    const traces: bool
    var rings: bool
    var events: bool
    var config: seq<Counter>
    var tunables: Tunables
    var timerCount: nat
    ghost var acts: seq<Act>

    ghost function Abs(): Driver
      reads this
    {
      Driver(isOpen, isSetup, started, ops, hasArch, traces, rings, events, config, tunables, timerCount, acts)
    }

    constructor (arch: bool, backtrace: bool, counters: seq<Counter>, z: Tunables)
      ensures Abs() == Driver(false, false, false, if arch then ArchOps else TimerOps, arch, backtrace,
                              false, false, counters, z, 1, [])
    {
      isOpen, isSetup, started, rings, events := false, false, false, false, false;
      hasArch, traces := arch, backtrace;
      ops := if arch then ArchOps else TimerOps;
      config, tunables, timerCount, acts := counters, z, 1, [];
    }

    /** oprofile_setup, with the cleanup that its labels do on the way out. */
    method Setup(o: Outcome) returns (ok: bool)
      modifies this
      ensures (Abs(), ok) == SetupStep(old(Abs()), o)
    {
      rings := o.ringsAllocated;
      if !rings {
        events := false;
        return false;
      }
      events := tunables.watershed < tunables.bufferSize && o.eventsAllocated;
      if !events {
        rings := false;
        return false;
      }
      if !o.backendReady {
        events := false;
        rings := false;
        return false;
      }
      acts := acts + [SetUp(ops)];
      isSetup := true;
      return true;
    }

    method OpenBuffer(o: Outcome) returns (ok: bool)
      modifies this
      ensures Abs() == OpenStep(old(Abs()), o)
      ensures ok <==> o.capable && !old(isOpen) && SetupStep(old(Abs()), o).1
      ensures isOpen <==> old(isOpen) || ok
    {
      if !o.capable || isOpen {
        return false;
      }
      isOpen := true;
      ok := Setup(o);
      if !ok {
        isOpen := false;
      }
    }

    method StartProfiling(backendStarts: bool) returns (ok: bool)
      modifies this
      ensures Abs() == StartStep(old(Abs()), backendStarts)
      ensures ok <==> old(isSetup) && (old(started) || backendStarts)
    {
      if !isSetup {
        return false;
      }
      if started {
        return true;
      }
      if !backendStarts {
        return false;
      }
      acts := acts + [Started(ops)];
      started := true;
      return true;
    }

    method StopProfiling()
      modifies this
      ensures Abs() == StopStep(old(Abs()))
    {
      if started {
        acts := acts + [Stopped(ops)];
        started := false;
      }
    }

    method AdaptProfiling(restarts: bool) returns (ok: bool)
      modifies this
      ensures Abs() == AdaptStep(old(Abs()), restarts)
      ensures ok <==> old(started) && restarts
    {
      if !started {
        return false;
      }
      acts := acts + [Stopped(ops)];
      if ops == ArchOps {
        if CanScale(config) {
          config := Scale(config);
        }
      } else if timerCount < MAX_COUNTER_VALUE {
        timerCount := timerCount * ADAPT_DECAY_FACTOR;
      }
      if !restarts {
        started := false;
        return false;
      }
      acts := acts + [Started(ops)];
      return true;
    }

    method Shutdown()
      modifies this
      ensures Abs() == ShutdownStep(old(Abs()))
    {
      acts := acts + [ShutDown(ops)];
      isSetup := false;
      events := false;
      rings := false;
    }

    method ReleaseBuffer()
      modifies this
      ensures Abs() == ReleaseStep(old(Abs()))
    {
      StopProfiling();
      Shutdown();
      isOpen := false;
    }

    method SetCounter(i: nat, c: Counter) returns (ok: bool)
      requires i < |config|
      modifies this`config
      ensures Abs() == SetCounterStep(old(Abs()), i, c) && (ok <==> !started)
    {
      if started {
        return false;
      }
      config := config[i := c];
      return true;
    }

    method SetTunable(t: Tunable, n: nat) returns (ok: bool)
      modifies this`tunables
      ensures Abs() == SetTunableStep(old(Abs()), t, n)
      ensures ok <==> !started && (t.Depth? ==> !isOpen && traces)
    {
      if t.Depth? && (!traces || isOpen) {
        return false;
      }
      if started {
        return false;
      }
      tunables := With(tunables, t, n);
      return true;
    }

    /** timer_write. */
    method SetTimerCount(n: nat) returns (ok: bool)
      modifies this`ops, this`timerCount
      ensures Abs() == SetTimerCountStep(old(Abs()), n) && (ok <==> !isOpen && !started)
    {
      if isOpen {
        return false;
      }
      ok := SwitchBackend(n);
    }

    /** oprofile_set_oprofile_timer_count. */
    method SwitchBackend(n: nat) returns (ok: bool)
      modifies this`ops, this`timerCount
      ensures Abs() == SwitchStep(old(Abs()), n) && (ok <==> !started)
    {
      if started {
        return false;
      }
      if n == 0 && hasArch {
        ops, timerCount := ArchOps, 0;
      } else {
        ops, timerCount := TimerOps, n;
      }
      return true;
    }
  }

  // ---- what holds over all sequences of operations ----

  /** A backend is idle, set up, or running. */
  datatype Usage = Unused | Ready(backend: Backend) | Running(backend: Backend)

  /** The protocol that a backend is used by: set up before anything else, by one backend at
    * a time, started only when ready, stopped only when running, and shut down once, by the
    * backend that was set up, when not running. */
  function Use(u: Option<Usage>, act: Act): Option<Usage> {
    match (u, act)
    case (Some(Unused), SetUp(b)) => Some(Ready(b))
    case (Some(Ready(b)), Started(b')) => if b == b' then Some(Running(b)) else None
    case (Some(Running(b)), Stopped(b')) => if b == b' then Some(Ready(b)) else None
    case (Some(Ready(b)), ShutDown(b')) => if b == b' then Some(Unused) else None
    case _ => None
  }

  function Usages(acts: seq<Act>): Option<Usage> {
    if acts == [] then Some(Unused) else Use(Usages(acts[..|acts| - 1]), acts[|acts| - 1])
  }

  /** The backends have been used by the protocol, the one in use now being the selected. */
  predicate ByProtocol(d: Driver) {
    Usages(d.acts) == Some(if d.started then Running(d.ops) else if d.isSetup then Ready(d.ops) else Unused)
  }

  /** Rings, event buffer and backend are all held or all released, as the file is open or
    * not; profiling runs only while set up; and the backends have been used by the
    * protocol, the one in use now being the one selected. */
  predicate Inv(d: Driver) {
    && d.rings == d.events == d.isSetup == d.isOpen
    && (d.started ==> d.isSetup)
    && ByProtocol(d)
  }

  lemma DidUses(d: Driver, act: Act)
    ensures Usages(Did(d, act).acts) == Use(Usages(d.acts), act)
  {
    assert Did(d, act).acts[..|d.acts|] == d.acts;
  }

  lemma SetupUses(d: Driver, o: Outcome)
    requires ByProtocol(d) && !d.isSetup && !d.started
    ensures ByProtocol(SetupStep(d, o).0)
  {
    DidUses(d, SetUp(d.ops));
  }

  lemma StartUses(d: Driver, ok: bool)
    requires ByProtocol(d)
    ensures ByProtocol(StartStep(d, ok))
  {
    DidUses(d, Started(d.ops));
  }

  lemma StopUses(d: Driver)
    requires ByProtocol(d) && (d.started ==> d.isSetup)
    ensures ByProtocol(StopStep(d))
  {
    DidUses(d, Stopped(d.ops));
  }

  lemma ShutdownUsesIff(d: Driver)
    requires ByProtocol(d) && d.isSetup
    ensures ByProtocol(ShutdownStep(d)) <==> !d.started
  {
    DidUses(d, ShutDown(d.ops));
  }

  lemma ScaleUses(d: Driver)
    requires ByProtocol(d)
    ensures ByProtocol(ScaleStep(d)) && SameHold(d, ScaleStep(d)) && ScaleStep(d).started == d.started
  {
  }

  predicate SameHold(d: Driver, d': Driver) {
    && d'.isSetup == d.isSetup && d'.isOpen == d.isOpen && d'.rings == d.rings && d'.events == d.events
    && d'.ops == d.ops
  }

  /** A backend that runs is stopped and started again, or stays stopped. */
  lemma AdaptUses(d: Driver, ok: bool)
    requires ByProtocol(d) && (d.started ==> d.isSetup)
    ensures var d' := AdaptStep(d, ok); SameHold(d, d') && (d'.started ==> d.started) && ByProtocol(d')
  {
    if d.started {
      var stopped := StopStep(d);
      StopUses(d);
      ScaleUses(stopped);
      StartUses(ScaleStep(stopped), ok);
      ScaleAnyway(Did(d, Stopped(d.ops)), false);
      assert AdaptStep(d, ok) == StartStep(ScaleStep(stopped), ok);
    }
  }

  lemma ScaleAnyway(d: Driver, started: bool)
    ensures ScaleStep(d.(started := started)) == ScaleStep(d).(started := started)
  {
  }

  lemma StepKeeps(d: Driver, op: Op)
    requires Inv(d) && Enabled(d, op)
    ensures Inv(Step(d, op))
  {
    match op {
      case Open(o) =>
        if !d.isOpen {
          SetupUses(d.(isOpen := true), o);
        }
      case Release =>
        StopUses(d);
        ShutdownUsesIff(StopStep(d));
      case Start(ok) => StartUses(d, ok);
      case Stop => StopUses(d);
      case Adapt(ok) => AdaptUses(d, ok);
      case SetCounter(i, c) =>
      case SetTunable(t, n) =>
      case SetTimerCount(n) =>
    }
  }

  predicate Possible(d: Driver, ops: seq<Op>)
    decreases |ops|, 0
  {
    ops == [] || (Possible(d, ops[..|ops| - 1]) && Enabled(After(d, ops[..|ops| - 1]), ops[|ops| - 1]))
  }

  function After(d: Driver, ops: seq<Op>): Driver
    requires Possible(d, ops)
    decreases |ops|, 1
  {
    if ops == [] then d else Step(After(d, ops[..|ops| - 1]), ops[|ops| - 1])
  }

  /** Lifecycle safety over every sequence of opens, releases, starts, stops, adaptations and
    * writes, however their outer steps turn out. */
  lemma {:induction false} AlwaysSafe(d: Driver, ops: seq<Op>)
    requires Inv(d) && Possible(d, ops)
    ensures Inv(After(d, ops))
  {
    if ops != [] {
      AlwaysSafe(d, ops[..|ops| - 1]);
      StepKeeps(After(d, ops[..|ops| - 1]), ops[|ops| - 1]);
    }
  }

  /** While profiling runs, the configuration is frozen: only an adaptation touches it, and
    * it scales what the running backend counts by, all of it or nothing. */
  lemma FrozenWhileStarted(d: Driver, op: Op)
    requires Inv(d) && Enabled(d, op) && d.started
    ensures var d' := Step(d, op);
            && d'.ops == d.ops && d'.tunables == d.tunables
            && (d'.config == d.config
                || (op.Adapt? && d.ops == ArchOps && CanScale(d.config) && d'.config == Scale(d.config)))
            && (d'.timerCount == d.timerCount
                || (op.Adapt? && d.ops == TimerOps && d'.timerCount == d.timerCount * ADAPT_DECAY_FACTOR <= INT_MAX))
  {
  }

  // ---- what each operation does, said without the functions above ----

  lemma AdaptFrame(d: Driver, ok: bool)
    requires d.started
    ensures var d' := AdaptStep(d, ok);
            && d'.config == ScaledConfig(d.ops, d.config) && d'.timerCount == ScaledTimer(d.ops, d.timerCount)
            && d'.started == ok && d'.isSetup == d.isSetup && d'.isOpen == d.isOpen && d'.ops == d.ops
            && d'.tunables == d.tunables
  {
  }

  /** An adaptation scales by ten what the backend in use counts by, as soon as all of it can
    * be scaled, and goes on if the restart works. */
  lemma AdaptScales(d: Driver, ok: bool)
    requires d.started
    ensures var d' := Step(d, Adapt(ok));
            && (d.ops == ArchOps && CountsBelow(d.config, 214748364) ==> TenTimes(d.config, d'.config))
            && (d.ops == TimerOps || !CountsBelow(d.config, 214748364) ==> d'.config == d.config)
            && d'.timerCount == (if d.ops == TimerOps && d.timerCount < 214748364 then 10 * d.timerCount
                                 else d.timerCount)
            && d'.started == ok && d'.isSetup == d.isSetup && d'.isOpen == d.isOpen && d'.ops == d.ops
            && d'.tunables == d.tunables
  {
    AdaptFrame(d, ok);
    ScalesByTen(d.config);
  }

  /** An open succeeds if and only if nothing fails, among which a watershed that is not below
    * the buffer size; then all is held, and otherwise the driver is as it was. */
  lemma OpensIff(d: Driver, o: Outcome)
    requires Inv(d)
    ensures var d' := Step(d, Open(o));
            var opens := !d.isOpen && o.capable && o.ringsAllocated && o.eventsAllocated && o.backendReady
                         && d.tunables.watershed < d.tunables.bufferSize;
            if opens then d' == d.(isOpen := true, isSetup := true, rings := true, events := true,
                                   acts := d.acts + [SetUp(d.ops)])
            else d' == d
  {
  }

  /** Starting and stopping: profiling runs after a start that works, and not after a stop. */
  lemma StartsAndStops(d: Driver, ok: bool)
    ensures var d' := Step(d, Op.Start(ok));
            d' == if d.isSetup && !d.started && ok then d.(started := true, acts := d.acts + [Started(d.ops)]) else d
    ensures var d' := Step(d, Stop);
            d' == if d.started then d.(started := false, acts := d.acts + [Stopped(d.ops)]) else d
    ensures !Step(d, Stop).started
  {
  }

  lemma ReleaseFreesAll(d: Driver)
    requires Inv(d) && d.isOpen
    ensures var d' := Step(d, Release);
            && !d'.isOpen && !d'.isSetup && !d'.started && !d'.rings && !d'.events
            && d'.config == d.config && d'.tunables == d.tunables && d'.ops == d.ops && d'.timerCount == d.timerCount
            && d'.acts == d.acts + (if d.started then [Stopped(d.ops)] else []) + [ShutDown(d.ops)]
  {
  }

  /** A write while stopped changes its own number and nothing else; a timer count of zero
    * selects the processor's own backend, if there is one. */
  lemma WritesAreExact(d: Driver, i: nat, c: Counter, n: nat)
    requires !d.started && !d.isOpen && d.traces && i < |d.config|
    ensures Step(d, SetCounter(i, c)) == d.(config := d.config[i := c])
    ensures Step(d, SetTunable(Depth, n)) == d.(tunables := d.tunables.(depth := n))
    ensures Step(d, SetTunable(BufferSize, n)) == d.(tunables := d.tunables.(bufferSize := n))
    ensures Step(d, SetTunable(Watershed, n)) == d.(tunables := d.tunables.(watershed := n))
    ensures Step(d, SetTunable(RingSize, n)) == d.(tunables := d.tunables.(ringSize := n))
    ensures Step(d, SetTimerCount(0)) == if d.hasArch then d.(ops := ArchOps, timerCount := 0)
                                         else d.(ops := TimerOps, timerCount := 0)
    ensures n > 0 ==> Step(d, SetTimerCount(n)) == d.(ops := TimerOps, timerCount := n)
  {
  }

  /** And what is refused changes nothing. */
  lemma RefusedWrites(d: Driver, i: nat, c: Counter, t: Tunable, n: nat)
    ensures d.started ==> Step(d, SetCounter(i, c)) == d && Step(d, SetTunable(t, n)) == d
    ensures d.started || d.isOpen ==> Step(d, SetTimerCount(n)) == d
    ensures d.isOpen || !d.traces ==> Step(d, SetTunable(Depth, n)) == d
    ensures !d.started && !t.Depth? && d.isOpen ==>
              Step(d, SetTunable(t, n)).tunables == With(d.tunables, t, n)
  {
  }

  // ---- the operations in the pieces that start_sem makes atomic ----

  /** How far whoever opened the file has come. */
  datatype Phase = Closed | Claimed | Held | Releasing | Emptied

  /** `writers` have seen the file closed and are about to switch the backend. */
  datatype World = World(d: Driver, phase: Phase, writers: nat)

  /** What is done in one go. An open is Claim, SetUpAll and, if that fails, Unclaim; a release
    * is BeginRelease, ShutDownAll, Unclaim; a write of the timer count is SeeClosed and
    * Switch; a write of the depth that has passed its test is Tune. */
  datatype Section =
    | Claim
    | SetUpAll(outcome: Outcome)
    | BeginRelease
    | ShutDownAll
    | Unclaim
    | StartUp(ok: bool)
    | StopDown
    | AdaptOnce(ok: bool)
    | Number(i: nat, c: Counter)
    | Tune(t: Tunable, n: nat)
    | SeeClosed
    | Switch(n: nat)

  predicate CanDo(w: World, s: Section) {
    match s
    case Claim => w.phase == Closed
    case SetUpAll(_) => w.phase == Claimed
    case BeginRelease => w.phase == Held
    case ShutDownAll => w.phase == Releasing
    case Unclaim => w.phase == Emptied
    case SeeClosed => !w.d.isOpen
    case Switch(_) => w.writers > 0
    case _ => true
  }

  function Do(w: World, s: Section): World
    requires CanDo(w, s)
  {
    match s
    case Claim => w.(d := w.d.(isOpen := true), phase := Claimed)
    case SetUpAll(o) => w.(d := SetupStep(w.d, o).0, phase := if SetupStep(w.d, o).1 then Held else Emptied)
    case BeginRelease => w.(d := StopStep(w.d), phase := Releasing)
    case ShutDownAll => w.(d := ShutdownStep(w.d), phase := Emptied)
    case Unclaim => w.(d := w.d.(isOpen := false), phase := Closed)
    case StartUp(ok) => w.(d := StartStep(w.d, ok))
    case StopDown => w.(d := StopStep(w.d))
    case AdaptOnce(ok) => w.(d := AdaptStep(w.d, ok))
    case Number(i, c) => w.(d := SetCounterStep(w.d, i, c))
    case Tune(t, n) => w.(d := TuneStep(w.d, t, n))
    case SeeClosed => w.(writers := w.writers + 1)
    case Switch(n) => w.(d := SwitchStep(w.d, n), writers := w.writers - 1)
  }

  predicate Safe(w: World) {
    && (w.d.isOpen <==> w.phase != Closed)
    && w.d.rings == w.d.events == w.d.isSetup == (w.phase == Held || w.phase == Releasing)
    && (w.d.started ==> w.d.isSetup)
    && ByProtocol(w.d)
  }

  /** What the driver does not check: that the backend in use is not switched away, and that
    * nobody has started profiling between the two halves of a release. */
  predicate Guard(w: World, s: Section) {
    match s
    case Switch(n) => w.d.started || !w.d.isSetup || SwitchStep(w.d, n).ops == w.d.ops
    case ShutDownAll => !w.d.started
    case _ => true
  }

  lemma SectionSafeIff(w: World, s: Section)
    requires Safe(w) && CanDo(w, s)
    ensures Safe(Do(w, s)) <==> Guard(w, s)
  {
    match s {
      case SetUpAll(o) => SetupUses(w.d, o);
      case BeginRelease => StopUses(w.d);
      case ShutDownAll => ShutdownUsesIff(w.d);
      case StartUp(ok) => StartUses(w.d, ok);
      case StopDown => StopUses(w.d);
      case AdaptOnce(ok) => AdaptUses(w.d, ok);
      case _ =>
    }
  }

  predicate Doable(w: World, ss: seq<Section>)
    decreases |ss|
  {
    ss == [] || (CanDo(w, ss[0]) && Doable(Do(w, ss[0]), ss[1..]))
  }

  function DoAll(w: World, ss: seq<Section>): World
    requires Doable(w, ss)
    decreases |ss|
  {
    if ss == [] then w else DoAll(Do(w, ss[0]), ss[1..])
  }

  predicate SafeThroughout(w: World, ss: seq<Section>)
    requires Doable(w, ss)
    decreases |ss|
  {
    Safe(w) && (ss != [] ==> SafeThroughout(Do(w, ss[0]), ss[1..]))
  }

  predicate Guarded(w: World, ss: seq<Section>)
    requires Doable(w, ss)
    decreases |ss|
  {
    ss != [] ==> Guard(w, ss[0]) && Guarded(Do(w, ss[0]), ss[1..])
  }

  /** Lifecycle safety over every interleaving of the pieces, exactly: a run is safe at every
    * moment if and only if no switch hits a backend in use and no start falls into the gap
    * of a release. */
  lemma {:induction false} SafeIffGuarded(w: World, ss: seq<Section>)
    requires Safe(w) && Doable(w, ss)
    ensures SafeThroughout(w, ss) <==> Guarded(w, ss)
    decreases |ss|
  {
    if ss != [] {
      SectionSafeIff(w, ss[0]);
      if Guard(w, ss[0]) {
        SafeIffGuarded(Do(w, ss[0]), ss[1..]);
      }
    }
  }

  /** The pieces of an operation that nothing comes between. */
  function Sections(d: Driver, op: Op): seq<Section> {
    match op
    case Open(o) =>
      if !o.capable || d.isOpen then []
      else [Claim, SetUpAll(o)] + if SetupStep(d.(isOpen := true), o).1 then [] else [Unclaim]
    case Release => [BeginRelease, ShutDownAll, Unclaim]
    case Start(ok) => [StartUp(ok)]
    case Stop => [StopDown]
    case Adapt(ok) => [AdaptOnce(ok)]
    case SetCounter(i, c) => [Number(i, c)]
    case SetTunable(t, n) => if t.Depth? && (d.isOpen || !d.traces) then [] else [Tune(t, n)]
    case SetTimerCount(n) => if d.isOpen then [] else [SeeClosed, Switch(n)]
  }

  predicate Between(w: World) { Safe(w) && (w.phase == Closed || w.phase == Held) }

  /** An operation as a whole is its pieces one after the other, and then no guard fails. */
  lemma OpIsSections(w: World, op: Op)
    requires Between(w) && Enabled(w.d, op)
    ensures var ss := Sections(w.d, op);
            && Doable(w, ss) && Guarded(w, ss)
            && DoAll(w, ss).d == Step(w.d, op) && DoAll(w, ss).writers == w.writers && Between(DoAll(w, ss))
  {
    match op {
      case Open(o) => OpenIsSections(w, o);
      case Release => ReleaseIsSections(w);
      case SetTimerCount(n) => TimerIsSections(w, n);
      case SetTunable(t, n) =>
        if Sections(w.d, op) != [] {
          OneSection(w, Tune(t, n));
        }
      case _ => OneSection(w, Sections(w.d, op)[0]);
    }
  }

  /** One piece, and what comes after it. */
  lemma Then(w: World, s: Section, rest: seq<Section>)
    requires CanDo(w, s) && Doable(Do(w, s), rest)
    ensures var ss := [s] + rest;
            && Doable(w, ss) && DoAll(w, ss) == DoAll(Do(w, s), rest)
            && (Guarded(w, ss) <==> Guard(w, s) && Guarded(Do(w, s), rest))
  {
    assert ([s] + rest)[1..] == rest;
  }

  /** The same of a piece that meets its guard. */
  lemma ThenSafely(w: World, s: Section, rest: seq<Section>)
    requires CanDo(w, s) && Safe(w) && Guard(w, s) && Doable(Do(w, s), rest)
    ensures var ss := [s] + rest;
            && Doable(w, ss) && DoAll(w, ss) == DoAll(Do(w, s), rest)
            && (Guarded(w, ss) <==> Guarded(Do(w, s), rest)) && Safe(Do(w, s))
  {
    Then(w, s, rest);
    SectionSafeIff(w, s);
  }

  lemma OneSection(w: World, s: Section)
    requires CanDo(w, s) && Safe(w) && Guard(w, s)
    ensures Doable(w, [s]) && Guarded(w, [s]) && DoAll(w, [s]) == Do(w, s) && Safe(Do(w, s))
  {
    ThenSafely(w, s, []);
    assert [s] + [] == [s];
  }

  lemma OpenIsSections(w: World, o: Outcome)
    requires Between(w)
    ensures var ss := Sections(w.d, Open(o));
            && Doable(w, ss) && Guarded(w, ss) && Between(DoAll(w, ss))
            && DoAll(w, ss).d == OpenStep(w.d, o) && DoAll(w, ss).writers == w.writers
  {
    if o.capable && !w.d.isOpen {
      var w1 := Do(w, Claim);
      var w2 := Do(w1, SetUpAll(o));
      SectionSafeIff(w, Claim);
      SectionSafeIff(w1, SetUpAll(o));
      if w2.phase == Held {
        OneSection(w1, SetUpAll(o));
        ThenSafely(w, Claim, [SetUpAll(o)]);
      } else {
        OneSection(w2, Unclaim);
        ThenSafely(w1, SetUpAll(o), [Unclaim]);
        ThenSafely(w, Claim, [SetUpAll(o), Unclaim]);
      }
    }
  }

  lemma ReleaseIsSections(w: World)
    requires Between(w) && w.d.isOpen
    ensures var ss := [BeginRelease, ShutDownAll, Unclaim];
            && Doable(w, ss) && Guarded(w, ss) && Between(DoAll(w, ss))
            && DoAll(w, ss).d == ReleaseStep(w.d) && DoAll(w, ss).writers == w.writers
  {
    var w1 := Do(w, BeginRelease);
    SectionSafeIff(w, BeginRelease);
    SectionSafeIff(w1, ShutDownAll);
    OneSection(Do(w1, ShutDownAll), Unclaim);
    ThenSafely(w1, ShutDownAll, [Unclaim]);
    ThenSafely(w, BeginRelease, [ShutDownAll, Unclaim]);
  }

  lemma TimerIsSections(w: World, n: nat)
    requires Between(w)
    ensures var ss := Sections(w.d, SetTimerCount(n));
            && Doable(w, ss) && Guarded(w, ss) && Between(DoAll(w, ss))
            && DoAll(w, ss).d == SetTimerCountStep(w.d, n) && DoAll(w, ss).writers == w.writers
  {
    if !w.d.isOpen {
      SectionSafeIff(w, SeeClosed);
      OneSection(Do(w, SeeClosed), Switch(n));
      ThenSafely(w, SeeClosed, [Switch(n)]);
    }
  }

  /** What a start in the gap of a release does: profiling is started, with everything freed. */
  lemma ReleaseGap(w: World)
    requires Safe(w) && w.phase == Held
    ensures var ss := [BeginRelease, StartUp(true), ShutDownAll, Unclaim];
            && Doable(w, ss) && !SafeThroughout(w, ss)
            && var d' := DoAll(w, ss).d;
               d'.started && !d'.isSetup && !d'.rings && !d'.events
  {
    var w1 := Do(w, BeginRelease);
    var w2 := Do(w1, StartUp(true));
    var w3 := Do(w2, ShutDownAll);
    assert [Unclaim] + [] == [Unclaim];
    Then(w3, Unclaim, []);
    Then(w2, ShutDownAll, [Unclaim]);
    Then(w1, StartUp(true), [ShutDownAll, Unclaim]);
    Then(w, BeginRelease, [StartUp(true), ShutDownAll, Unclaim]);
    SafeIffGuarded(w, [BeginRelease, StartUp(true), ShutDownAll, Unclaim]);
  }

  /** What a switch of the backend does that saw the file closed and comes after the next
    * open: the processor's own backend was set up, and the timer's is shut down. */
  lemma TimerGap(w: World, o: Outcome, n: nat)
    requires Safe(w) && w.phase == Closed && w.d.ops == ArchOps && n > 0
    requires SetupStep(w.d.(isOpen := true), o).1
    ensures var ss := [SeeClosed, Claim, SetUpAll(o), Switch(n), BeginRelease, ShutDownAll];
            Doable(w, ss) && !SafeThroughout(w, ss) && Usages(DoAll(w, ss).d.acts) == None
  {
    var w1 := Do(w, SeeClosed);
    var w2 := Do(w1, Claim);
    var w3 := Do(w2, SetUpAll(o));
    SectionSafeIff(w, SeeClosed);
    SectionSafeIff(w1, Claim);
    SectionSafeIff(w2, SetUpAll(o));
    SwitchedAway(w3, n);
    Then(w2, SetUpAll(o), [Switch(n), BeginRelease, ShutDownAll]);
    Then(w1, Claim, [SetUpAll(o), Switch(n), BeginRelease, ShutDownAll]);
    Then(w, SeeClosed, [Claim, SetUpAll(o), Switch(n), BeginRelease, ShutDownAll]);
    SafeIffGuarded(w, [SeeClosed, Claim, SetUpAll(o), Switch(n), BeginRelease, ShutDownAll]);
  }

  lemma SwitchedAway(w: World, n: nat)
    requires Safe(w) && w.phase == Held && w.d.ops == ArchOps && n > 0 && w.writers > 0 && !w.d.started
    ensures var ss := [Switch(n), BeginRelease, ShutDownAll];
            Doable(w, ss) && !Guarded(w, ss) && Usages(DoAll(w, ss).d.acts) == None
  {
    var w1 := Do(w, Switch(n));
    var w2 := Do(w1, BeginRelease);
    assert [ShutDownAll] + [] == [ShutDownAll];
    Then(w2, ShutDownAll, []);
    Then(w1, BeginRelease, [ShutDownAll]);
    Then(w, Switch(n), [BeginRelease, ShutDownAll]);
    DidUses(w2.d, ShutDown(TimerOps));
  }
}
