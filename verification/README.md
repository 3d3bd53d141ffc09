# A verified model of the rrprofile kernel driver

The driver samples a running kernel. Interrupt handlers put escape-coded entries into a ring per CPU; `sync_buffer`
drains a ring through a four-state machine into one stream of machine words; a bounded buffer holds the stream until a
daemon reads it; and a small life cycle decides when all this may happen. Around that core, back ends program
performance counters: they save and restore shared registers, pack fields, and choose what a counter counts up to.

The project models the build that is made (`RRPROFILE` defined, kernel 3.3 or later), and of the other build the two
parts that are hardest to get right: when a process that has ended may be freed, and how samples are turned into
cookies and offsets. Code that changes things in place is modelled by classes and methods, each proved against a
specification function; the theorems are about those functions and about every run of the state machines built from
them. What those functions compute is said a second time without them: by positions, over memory and registers alone,
or bit by bit and by number.

| file | what it models |
|---|---|
| `EventStream.dfy` | the words of the stream: a printer, a parser, unique decodability |
| `CpuBuffer.dfy`, `CpuRing.dfy` | the per-CPU ring, as a queue value and as an array with head and tail |
| `EventBuffer.dfy` | the bounded event buffer: loss accounting, watershed, wakeups |
| `BufferSync.dfy`, `SyncBuffer.dfy`, `Stamps.dfy` | `sync_buffer`, as a description by positions, a state machine, and a loop with interrupts between its steps; its timestamps |
| `Attribution.dfy`, `Pipeline.dfy` | what a daemon decodes, and the end-to-end theorem over all interleavings on any number of CPUs |
| `Refinement.dfy` | that the in-place loop is a run of the pipeline, and of a session |
| `Session.dfy`, `Lifecycle.dfy` | adaptation and period labels; setup, start, stop, shutdown |
| `Msr.dfy`, `P4.dfy`, `P4Restore.dfy` | saving, writing and restoring registers that hyper-threads share |
| `Backtrace.dfy` | the frame-pointer walk into the ring |
| `CounterPeriod.dfy`, `Athlon.dfy`, `Rs64.dfy`, `Power4.dfy` | counter periods, field programming, register images |
| `Mortuary.dfy`, `Cookies.dfy` | the build without `RRPROFILE`: the grace period for ended processes, cookies and address spaces |
| `Wrappers.dfy`, `Sequences.dfy`, `Numbers.dfy`, `Words.dfy` | what the others share: options, sequences, division, words as sets of bits |

## What came out

- `log_sample` checks for 3 free slots and fills up to 4. The ring stays first-in first-out exactly unless 3 slots are
  free at that check (4 before a trace) and mode and process have both changed; then everything pending is lost
  (`CpuBuffer.FifoIffRoom`; a fresh ring of four slots does it with its first sample,
  `CpuBuffer.FirstSampleCanVanish`), uncounted (`CpuBuffer.EverySampleIsCounted`). The timestamp writers need one slot
  and check for none.
- The comment in `get_slots` (driver/buffer_sync.c:457-468) fears misattribution in the window between the head read
  and the reset. A daemon that forgets mode and process at each CPU switch never misattributes. Such a sample can be
  missing or have unknowns, and it is decoded whole exactly under the condition of `Attribution.DecodedWholeIff`;
  `Pipeline.EndToEnd` carries the exact outcome through every run.
- A copy to the reader that fails at or past the watershed leaves a full buffer that nobody is told about, and no
  later word mends it, because the test is for equality (`EventBuffer.AnnouncedStep`, `EventBuffer.StaysUnannounced`,
  and a run of two operations in `EventBuffer.FailedCopyUnannounces`).
- Samples before the first adaptation record have the period that was programmed when the buffer file was opened. A
  count written between opening and enabling makes that label wrong; later labels are right
  (`Session.WordsAreLabelled`, `Session.FirstLabelCanBeFalse`). An overrun ring does not make a label wrong: whatever
  slots a sync reads have been written since the head read before (`SyncBuffer.SyncBuffer`,
  `Refinement.SyncBufferIsLabelled`).
- `event_buffer_release` stops and shuts down in two critical sections. A start between them leaves profiling started
  with everything freed (`Lifecycle.ReleaseGap`).
- `timer_write` tests whether the buffer file is open before it takes the semaphore, and what it does with it held
  does not look again. An open in between is followed by a switch of the backend, and the release shuts down one that
  was never set up (`Lifecycle.TimerGap`). These two gaps are all: without them every interleaving is safe
  (`Lifecycle.SafeIffGuarded`).
- A P4 hyper-thread writes registers that only its sibling saves. `P4Restore.LeftToSibling` lists them, and with one
  thread of a pair alone they would not be restored (`P4Restore.SiblingIsNeeded`).
- On POWER4 a disabled counter gets event 8 but keeps the adder lane bit of its unused event (`Power4.SixBits`).
- RS64's `ctrl_write` does not cut an event to its field; the start loop is right exactly for events that fit
  (`Rs64.StartedIffFits`, `Rs64.TooWide`). On the Athlon the unit mask is not cut either, and its ninth and later bits
  can turn on user, kernel or active (`Athlon.LowIsMeantIff`, `Athlon.MaskTurnsActiveOn`).
- A timer count above 2^31 is not honoured with 64-bit words, where the tick counter turns negative first
  (`CounterPeriod.SamplesPerTicks`, `CounterPeriod.TimerCanBeEarly`).

## Assumptions

- Execution is a sequence of steps: memory barriers and weak memory are not part of this model. A producer call is
  atomic, and may land between any two steps of a consumer, including between the head read and each of the two writes
  of `cpu_buffer_reset`. The three words of an adaptation record are emitted together, although the code does not hold
  `buffer_sem` for them.
- A `task_struct` pointer fixes its tgid and pid while it can be compared with `last_task`.
- Backends leave `sync_start` and `sync_stop` at NULL. The backtrace operation of the timer is the processor's own
  (driver/oprof.c:447). The set of online CPUs is fixed.
- Register numbers of the Pentium 4 are the processor's own; the header that names them is not part of this model.
  Kernel `int` arithmetic wraps around.

## Model

| member | source | states |
|---|---|---|
| `EventStream.NextPrint` | driver/buffer_sync.c:311-374 | the parser reads back each record that the emitters write, with whatever follows, even when operands equal the escape value; 64-bit timestamps come in one or two words by word size |
| `EventStream.WordsByNumber` | oprofile.h:26-47 | the words of every kind of record, codes and operands, by number |
| `EventStream.NextCut` | driver/buffer_sync.c:598-641 | a record cut short is never taken for another record |
| `EventStream.PrefixParses` | oprofile.h:20-47 | any prefix of a stream parses to a prefix of its records and at most one cut record, which is a proper prefix of the next |
| `EventStream.RoundTrip` | driver/buffer_sync.c:311-374 | parsing the words of any record sequence returns that sequence and nothing else |
| `EventStream.UniquelyDecodable` | oprofile.h:20-47 | two record sequences with the same words are the same; if the words of one begin those of the other, so do the records |
| `CpuBuffer.EnqueueAllOverruns` | driver/cpu_buffer.c:178-201 | one entry more than there is room for makes the ring look empty |
| `CpuBuffer.LogSampleQueues` | driver/cpu_buffer.c:227-266 | with 3 free slots a valid sample is accepted with its mode and process notes: appended in order if all of them fit, with the whole ring lost if not |
| `CpuBuffer.LoggedChain` | driver/cpu_buffer.c:335-357 | the pcs of a backtrace that are logged are a prefix of the chain, cut only by a full ring or by the first escape value |
| `CpuBuffer.EntriesByNumber` | driver/cpu_buffer.h:68-78 | the entries of a noted sample and of each kind of timestamp, by number |
| `CpuBuffer.AddTracesFits` | driver/cpu_buffer.c:335-357 | a trace appends exactly that prefix, and nothing when not tracing |
| `CpuBuffer.HandleAppends` | driver/cpu_buffer.c:285-307 | a producer call with room appends its entries behind what is pending, and remembers the mode and process of an accepted sample |
| `CpuBuffer.FifoIffRoom` | driver/cpu_buffer.c:227-307 | a call is first-in first-out if and only if it has room; for samples the one failing case is 3 free slots (4 before a trace) with mode and process both changed |
| `CpuBuffer.FirstSampleCanVanish` | driver/cpu_buffer.c:227-266 | a fresh ring of four slots accepts its first sample and is then empty |
| `CpuBuffer.EverySampleIsCounted` | driver/cpu_buffer.c:227-357 | with or without room, every call raises one count (invalid, lost, aborted) unless the sample is logged with its whole chain; without room that sample and all that was pending have vanished uncounted |
| `CpuBuffer.CountsExactly` | driver/cpu_buffer.c:227-357 | which count each refusal raises: fewer than 4 slots before a trace or 3 for a sample is a loss, an escape value for a pc is invalid, a caller without a slot is a loss and one with the escape value an aborted trace; every sample that gets to log_sample is received |
| `CpuRing.Ring.NrAvailableSlots` | driver/cpu_buffer.c:167-176 | the producers' free slots and the consumer's used slots always add up to the size less one |
| `CpuRing.Ring.AddSample` | driver/cpu_buffer.c:178-201 | the array write is the queue's append, or its overrun, with no assumption about room, and the array always holds the last of all writes |
| `CpuRing.SlotHolds` | driver/cpu_buffer.c:178-201 | the slot of any write holds that write or a later one, however often the ring has been overrun |
| `CpuRing.Ring.LogSample` | driver/cpu_buffer.c:227-266 | the in-place code refines the queue specification, statistics and result included |
| `CpuRing.Ring.BeginTrace` | driver/cpu_buffer.c:268-278 | a trace begins if and only if 4 slots are free, else the sample is counted as lost |
| `CpuRing.Ring.AddTrace` | driver/cpu_buffer.c:335-357 | the in-place code refines the queue specification |
| `CpuRing.Ring.Handle` | driver/cpu_buffer.c:285-307 | a whole call, with its backtrace loop, refines the queue specification and never moves the tail |
| `CpuRing.Ring.IncrementTail` | driver/buffer_sync.c:478-488 | moving the tail takes the oldest entry off the queue |
| `EventBuffer.EventBuffer.AddEventEntry` | driver/event_buffer.c:55-67 | a word is stored or counted as lost, and only the one that reaches the watershed exactly raises the flag and wakes the reader |
| `EventBuffer.ReadyIffReached` | driver/event_buffer.c:55-67 | after any words the flag is set if and only if it was set or they reached the watershed from below |
| `EventBuffer.EventBuffer.WakeUpBufferWaiter` | driver/event_buffer.c:74-88 | waking the waiter sets the dump flag and changes nothing else |
| `EventBuffer.EventBuffer.ReadWords` | driver/event_buffer.c:208-258 | a read is refused, waits, fails or hands over all words, and only the last empties the buffer; a failed copy clears the flag but keeps the words |
| `EventBuffer.ReadOutcome` | driver/event_buffer.c:208-258 | exactly when a read is refused, interrupted, waits, finds nothing, fails or delivers, and what becomes of the buffer |
| `EventBuffer.WakeHandsOver` | driver/event_buffer.c:74-88 | after a wake a read hands over what is left, however little |
| `EventBuffer.LossAccounting` | driver/event_buffer.c:208-258 | over every run the buffer holds the longest fitting prefix of what was emitted since it was emptied, the loss count is the words dropped since its reset, and delivered, buffered, discarded and dropped words add up |
| `EventBuffer.AnnouncedStep` | driver/event_buffer.c:208-258 | from a state in which a full-enough buffer is announced, an operation leads to one that is not if and only if it is a read whose copy fails at or past the watershed |
| `EventBuffer.FailedCopyUnannounces` | driver/event_buffer.c:208-258 | a run of two operations from a start to a full-enough buffer that is not announced |
| `EventBuffer.StaysUnannounced` | driver/event_buffer.c:63-66 | once unannounced, no further words announce it |
| `EventBuffer.NoMissedWakeup` | driver/event_buffer.c:55-67 | with successful copies, every reachable buffer at or past its watershed has the flag set, despite the test for equality |
| `EventBuffer.NoEarlyWakeup` | driver/event_buffer.c:55-67 | without a wake, no reachable buffer below its watershed has the flag set |
| `EventBuffer.NoWaitAfterStop` | driver/event_buffer.c:74-88 | after a stop no read waits until a start or a setup |
| `EventBuffer.AddEntriesFit` | driver/event_buffer.c:55-67 | adding words keeps the longest fitting prefix and counts exactly the rest |
| `BufferSync.EmitsExactly` | driver/buffer_sync.c:545-676 | for every ring content the four-state machine emits the notes, each by the number of its entry, and exactly the samples described by position: non-null, in a trace not yet cut or else behind the first mode note; one loss is counted per cut trace, so at most one per trace begun |
| `BufferSync.EmitAllEncodable` | driver/buffer_sync.c:598-641 | what the ring can hold is emitted as records that the printer can write |
| `Stamps.StampIsEmitted` | driver/buffer_sync.c:614-654 | a timestamp call leaves exactly the timestamp record of its kind and time, whatever state the sync is in |
| `Stamps.BatchStamps` | driver/buffer_sync.c:558-688 | the timestamps parsed from the words of a batch are the kinds and times of its calls, in order, whatever samples lie between |
| `SyncBuffer.AllAppendIffRoom` | driver/cpu_buffer.c:285-307 | any number of calls append their entries one after the other, at every step, if and only if each has its room |
| `SyncBuffer.SyncEntry` | driver/buffer_sync.c:578-672 | one turn of the loop does one step of the machine and prints its records |
| `SyncBuffer.GetSlots` | driver/buffer_sync.c:452-475 | whatever lands around the head read and the two resets, the count is that of the entries at the head read; they stay at the front if every call had its room |
| `SyncBuffer.Drain` | driver/buffer_sync.c:573-675 | whatever lands in it, the loop moves the tail over as many entries as were counted, sees in each place the write due there or a later one, and emits the records of what it saw; that is its batch if every call had its room |
| `SyncBuffer.DrainLeaves` | driver/buffer_sync.c:573-675 | draining the first n entries leaves the others, and behind them in order all that the calls in between appended |
| `SyncBuffer.SyncBuffer` | driver/buffer_sync.c:558-688 | overrun or not, the tail ends where the head was at its read and every entry seen was written after the head read before; if every call had its room, what is emitted is decided by the entries at the head read alone, and just what came in since stays queued, in order |
| `SyncBuffer.SyncLeaves` | driver/buffer_sync.c:558-688 | after a sync the ring holds what was appended since the head read and nothing else |
| `Attribution.CleanIsExact` | driver/buffer_sync.c:457-468 | where no sample fell into the reset window, what is told is the whole truth |
| `Attribution.EntriesTell` | driver/buffer_sync.c:545-676 | what a daemon knows after some entries of a batch - mode, process, whether samples show - is read off their positions: a mode note, both task notes, a trace begun |
| `Attribution.NotedIsTold` | driver/cpu_buffer.c:248-265 | a sample is told exactly as far as it is known from its own notes and the entries before it, never with a wrong mode or process, and producer and reader still agree |
| `Attribution.CallReadsWell` | driver/cpu_buffer.c:285-307 | whatever one call appends, the daemon is told just what was logged as far as it is known, a sample logged after both resets in full, and what the producer will not note again the daemon knows |
| `Attribution.DecodedWholeIff` | driver/buffer_sync.c:457-471 | from the records that are emitted for it, an accepted sample, in the reset window or not, is decoded whole if and only if its pc is not null, its mode and its process are noted with it or were told before it in the batch, and, without tracing, a mode note has opened the batch |
| `Attribution.BareSample` | driver/buffer_sync.c:457-471 | its corollary for the comment's own case: the first sample of a batch, with no switch to note, is not shown without tracing and shown with mode and process unknown at the head of a trace |
| `Attribution.PrefixIsBrokenOff` | driver/buffer_sync.c:311-374 | decoding fewer records gives the same samples broken off, the last perhaps with a shorter chain |
| `Pipeline.NextKeeps` | driver/buffer_sync.c:558-688 | every step of every CPU, sync, adaptation and read keeps the invariant, each of the two reset writes taken by itself |
| `Pipeline.ProduceKeepsIff` | driver/cpu_buffer.c:285-307 | at any moment of any run, a producer call keeps the invariant, and its ring first-in first-out, if and only if it has the room it takes without checking |
| `Pipeline.AlwaysInv` | driver/buffer_sync.c:558-688 | the invariant holds over every run |
| `Pipeline.RingsAreFifo` | driver/cpu_buffer.c:167-201 | in every run what is consumed from a ring is a prefix of what was produced, the rest is pending in order and fits |
| `Pipeline.EndToEnd` | driver/event_buffer.c:208-258 | the words of each read parse to the records emitted since the last, as far as they fitted; with none dropped they decode to exactly what the logged samples are known by, in order, those of the reset window with just what their notes and the entries before them in the batch tell |
| `Pipeline.EverySampleIsOnItsWay` | driver/buffer_sync.c:558-688 | every sample logged on a CPU is in exactly one place: read, buffered, in the batch under way, or in the ring |
| `Pipeline.WholeTruth` | driver/event_buffer.c:208-258 | with nothing dropped and no sample in a reset window, the daemon decodes exactly what was logged |
| `Refinement.SyncBufferRuns` | driver/buffer_sync.c:558-688 | the in-place loop, called on the ring and the event buffer of a pipeline, leaves them as a run of the pipeline does if every call that lands in it has its room |
| `Refinement.SyncBufferIsLabelled` | driver/buffer_sync.c:558-688 | with nothing asked of room, the in-place loop emits what the run of a session goes on to emit and leaves the ring as that does, so that its labels are true for rings of any size |
| `Session.NmiAdapt` | x86/nmi_int.c:550-587 | scaling is all or nothing over the enabled counters and leaves disabled ones alone; after it every CPU has the new reset values, and otherwise what it had |
| `Session.ScalesByTen` | x86/nmi_int.c:560-587 | scaling is by ten, and refused exactly if some enabled count is 214748364 or more |
| `Session.ScaledCounts` | x86/nmi_int.c:560-587 | after k scalings every enabled count is its first value times 10^k and below 2^31 |
| `Session.AtMostNine` | x86/nmi_int.c:560-587 | with some enabled count of at least 1, at most nine adaptations succeed |
| `Session.NineFromOne` | x86/nmi_int.c:560-587 | nine do succeed from a count of 1: the bound is reached |
| `Session.Timer.Adapt` | driver/timer_int_2.6.35.c:138-149 | the tick divider scales like one enabled counter, so the same bounds hold |
| `Session.PeriodsAreActual` | driver/oprof.c:293-327 | the counts in force are those at the start times the adaptation value |
| `Session.NextKeeps` | driver/oprof.c:211-327 | every step of starting, stopping, adapting, syncing and interrupting keeps the labels true |
| `Session.AlwaysInv` | driver/oprof.c:211-327 | they are true over every run |
| `Session.WordsAreLabelled` | driver/oprof.c:211-327 | in any cut of the words, a sample that a daemon parses behind ADAPT(v) was taken with each count at its start value times v, exactly if v is not 1 or the hardware had been programmed with the configuration of the start; syncs may see any of the entries written since the head read before, as an overrun ring makes them |
| `Session.FirstLabelCanBeFalse` | driver/oprof.c:211-251 | a count written between opening and enabling: the first sample is labelled for 7 events and was taken every 100 |
| `Lifecycle.Oprofile.Setup` | driver/oprof.c:76-142 | setup holds rings, event buffer and backend, or after any failure none of them |
| `Lifecycle.Oprofile.OpenBuffer` | driver/event_buffer.c:142-187 | the file opens for one capable user at a time, and only if the setup succeeds; the result says whether |
| `Lifecycle.OpensIff` | driver/oprof.c:76-142 | an open succeeds if and only if nothing fails, a watershed not below the buffer size among the failures; else the driver is as it was |
| `Lifecycle.Oprofile.StartProfiling` | driver/oprof.c:211-251 | starting does nothing unless set up and stopped |
| `Lifecycle.StartsAndStops` | driver/oprof.c:211-283 | profiling runs after a start that works while set up, and never after a stop |
| `Lifecycle.Oprofile.AdaptProfiling` | driver/oprof.c:293-327 | adapting stops, scales and starts again, and only while started |
| `Lifecycle.AdaptScales` | driver/oprof.c:293-327 | every enabled count (under the timer, the tick count) is ten times what it was if all can be scaled, and everything is as it was if not; profiling goes on if the restart works |
| `Lifecycle.Oprofile.SetCounter` | driver/oprof.c:365-386 | configuration is refused while started |
| `Lifecycle.Oprofile.SetTunable` | driver/oprofile_files.c:100-126 | buffer sizes and backtrace depth are refused while started, the depth also while the buffer is open or if there are no backtraces |
| `Lifecycle.Oprofile.SetTimerCount` | driver/oprofile_files.c:270-293 | the timer count selects the backend, taken as one step: refused while the buffer is open or profiling started |
| `Lifecycle.Oprofile.SwitchBackend` | driver/oprof.c:391-413 | the locked half of it: zero selects the processor's own backend if there is one, refused only while started |
| `Lifecycle.WritesAreExact` | driver/oprof.c:365-413 | a write while stopped and closed changes its own number and nothing else |
| `Lifecycle.RefusedWrites` | driver/oprof.c:365-413 | and a refused one changes nothing |
| `Lifecycle.StepKeeps` | driver/oprof.c:76-413 | each operation keeps everything held or everything released, and uses backends by the protocol |
| `Lifecycle.AlwaysSafe` | driver/oprof.c:76-413 | over every sequence of whole operations: started implies set up, all resources are held or none, each backend is set up before and shut down once after its use, never two at a time |
| `Lifecycle.SafeIffGuarded` | driver/oprof.c:76-413 | over every interleaving of the pieces that the semaphore makes atomic, that is so at every moment if and only if no late write of the timer count switches away a backend that is set up and no start falls into the gap of a release |
| `Lifecycle.OpIsSections` | driver/event_buffer.c:142-205 | a whole operation is its pieces one after the other, and then no guard fails |
| `Lifecycle.ReleaseFreesAll` | driver/event_buffer.c:190-205 | a release stops if need be, shuts the backend down once, and holds nothing afterwards |
| `Lifecycle.FrozenWhileStarted` | driver/oprof.c:293-413 | while started only an adaptation changes the counters, by scaling, and nothing changes the backend, the buffer sizes or the backtrace depth |
| `Lifecycle.ReleaseGap` | driver/event_buffer.c:190-205 | from any state with the file open: a start between release's stop and shutdown leaves profiling started with everything freed |
| `Lifecycle.TimerGap` | driver/oprofile_files.c:270-293 | from any state with the file closed: a write of the timer count that tested before an open and switches after it makes release shut down a backend that was never set up |
| `Msr.SaveSlots` | x86/nmi_int.c:185-208 | each slot in use gets the current value of its register, the others keep what they had |
| `Msr.NmiCpuSaveRegisters` | x86/nmi_int.c:185-208 | counters and controls are both saved |
| `Msr.NmiRestoreRegisters` | x86/nmi_int.c:337-360 | the saved values are written back, controls first, later writes over earlier ones |
| `Msr.RestoredBySlot` | x86/nmi_int.c:337-360 | each register is left with the value of the last slot that names it, the others as they were |
| `Msr.RestoredIffPut` | x86/nmi_int.c:337-409 | writing saved values restores the registers if and only if every changed register is among them, in any order and however often |
| `Msr.RestoredIffCovered` | x86/nmi_int.c:319-409 | if all saves precede all writes and all restores follow, the registers end as they began if and only if some CPU saved each changed one, whatever CPUs share |
| `Msr.WritesOfAllRestore` | x86/nmi_int.c:389-409 | the CPUs one after the other make such a restore phase |
| `P4.P4Events` | x86/op_model_p4.c:123-345 | in the table of all 39 events no ESCR serves two counters, and each lies in its counter's half of the pairs |
| `P4.Events1To8ByNumber` | x86/op_model_p4.c:124-170 | the first eight entries by number: selects, counters and ESCR addresses |
| `P4.Events9To16ByNumber` | x86/op_model_p4.c:172-218 | the next eight |
| `P4.Events17To24ByNumber` | x86/op_model_p4.c:220-266 | the next eight |
| `P4.Events25To32ByNumber` | x86/op_model_p4.c:268-314 | the next eight |
| `P4.Events33To39ByNumber` | x86/op_model_p4.c:316-357 | and the last seven |
| `P4.P4EventsInOrder` | x86/op_model_p4.c:123-357 | the table is these pieces, in the order of the event codes |
| `P4.PmcByNumber` | x86/op_model_p4.c:570-575 | setup is done if and only if bit 7 of register 0x1a0 is set |
| `P4.AddressesByNumber` | x86/op_model_p4.c:98-118 | the registers of each counter and the CCCRs that belong to none, by number |
| `P4.FillInAddresses` | x86/op_model_p4.c:420-495 | with and without hyper-threading the loops name exactly the listed registers, fill every slot and overrun none |
| `P4.EscrFields` | x86/op_model_p4.c:351-359 | the fields of an ESCR do not overlap and read back what was put in |
| `P4.EscrModeBits` | x86/op_model_p4.c:353-356 | the two threads of an ESCR have separate user and kernel bits |
| `P4.SetupOneCounter` | x86/op_model_p4.c:498-559 | a counter that can count its event gets its ESCR and CCCR, any other is left alone |
| `P4.SetupCtrs` | x86/op_model_p4.c:562-639 | the whole register file after setup: unchanged without performance counters, else cleared and programmed as specified |
| `P4.CountersDoNotCollide` | x86/op_model_p4.c:629-638 | each enabled counter ends up loaded with minus its own count |
| `P4.EscrIsSet` | x86/op_model_p4.c:518-534 | its ESCR ends up with its own event, mask and modes in the bits where they belong and no other bit set, undisturbed by the other counters of its thread |
| `P4.CccrIsSet` | x86/op_model_p4.c:536-548 | and its CCCR with its own select, the overflow interrupt of its own thread and the required bits, over the reserved bits that were there, and not yet enabled |
| `P4.ThreadsDoNotCollide` | x86/op_model_p4.c:562-639 | the other hyper-thread writes none of a counter's registers |
| `P4.BoundByEntry` | x86/op_model_p4.c:498-517 | a counter can count an event if and only if the event's entry binds it, through the ESCR named with it |
| `P4.NothingElseIsSet` | x86/op_model_p4.c:498-559 | a register of no enabled counter and of no event that one can count is left as clearing leaves it, so that an unbound event programs nothing |
| `P4.OthersKeep` | x86/op_model_p4.c:562-639 | setup changes no register outside the set it is known to write |
| `P4.WrittenByNumber` | x86/op_model_p4.c:562-639 | the registers that setup writes, and those it clears, by number for each kind of CPU |
| `P4.WipedByNumber` | x86/op_model_p4.c:577-627 | clearing leaves zero in an ESCR and just the reserved and required bits in a CCCR |
| `P4Restore.SavedIs` | x86/op_model_p4.c:420-495 | exactly which addresses a thread saves |
| `P4Restore.SavedByNumber` | x86/op_model_p4.c:420-495 | the addresses that a thread saves, by number for each kind of CPU |
| `P4Restore.WrittenIsSaved` | x86/op_model_p4.c:562-639 | a thread saves what it writes except for exactly the listed registers, which its sibling saves |
| `P4Restore.SessionRestored` | x86/nmi_int.c:319-328 | on any number of packages, whatever a session writes to those registers is undone by the restores in any order |
| `P4Restore.SiblingIsNeeded` | x86/nmi_int.c:319-328 | a hyper-thread alone would not restore what it leaves to its sibling |
| `P4Restore.NmiSetup` | x86/nmi_int.c:285-334 | all threads of a package save before any is set up; afterwards every bit of the ESCR and CCCR of every enabled counter of both is as configured, and they can put back all that has changed |
| `P4Restore.SetupAndShutdown` | x86/nmi_int.c:285-409 | setting up all threads of a package and shutting down leaves the register file exactly as it was |
| `Backtrace.X86Backtrace` | x86/backtrace.c:237-318 | of the true chain of the interrupt - kernel stack, 64-bit or 32-bit user frames, said of memory and registers alone - the first `depth` return addresses are offered to the ring; the loops end without the depth |
| `Backtrace.OffersTheTrueChain` | x86/backtrace.c:89-318 | every interrupt has exactly one such chain: each frame readable and linked upwards to the next, cut to the words of the task, a kernel one above the stack pointer and below the end of its block |
| `Backtrace.DumpKernelBacktrace` | x86/backtrace.c:89-99 | one kernel frame: its return address is always offered, the walk goes on only upwards |
| `Backtrace.DumpUserBacktrace` | x86/backtrace.c:105-151 | one user frame: nothing is offered unless it can be read and its link goes upwards |
| `Backtrace.ReturnsAreTheChain` | x86/backtrace.c:237-318 | frames and addresses are a complete linked chain if and only if they are the ones that the walk visits |
| `Backtrace.FramesClimb` | x86/backtrace.c:89-226 | for every memory content the frames strictly ascend, kernel ones inside one stack, so there are finitely many |
| `Backtrace.WhatIsLogged` | driver/cpu_buffer.c:335-357 | what enters the ring is a prefix of the chain's return addresses, cut only by the depth, the room left or the first escape value |
| `CounterPeriod.OverflowsFirst` | x86/op_model_athlon.c:33-35 | nothing overflows before the period is over, for both ways to count |
| `CounterPeriod.PeriodIsCountIff` | powerpc/op_model_rs64.c:99-111 | the first overflow comes after exactly `count` events if and only if the count is at most 2^31 |
| `CounterPeriod.SamplesPerEvents` | x86/op_model_athlon.c:139-170 | with each overflow serviced at once, N events give N / count samples, for every count from 1 to 2^31 |
| `Athlon.LowIsMeantIff` | x86/op_model_athlon.c:109-120 | an enabled control register holds its event, mask and modes and nothing else if and only if no bit of the uncut unit mask beyond the eighth does harm |
| `Athlon.MaskTurnsActiveOn` | x86/op_model_athlon.c:50-51 | a unit mask with only its fifteenth bit set makes the counter active |
| `Athlon.HighIsMeant` | x86/op_model_athlon.c:121-123 | the high half holds the upper event bits, guest and host only cleared, the rest as it was |
| `Athlon.OffByNumber` | x86/op_model_athlon.c:85-97 | what a counter that is off keeps of its control register, by bits |
| `Athlon.Registers.SetupCtrs` | x86/op_model_athlon.c:80-132 | all four counters, controls and reset values after setup: enabled ones loaded with minus their count and programmed, idle ones with minus one and cleared |
| `Athlon.Registers.CheckCtrs` | x86/op_model_athlon.c:139-170 | one report per overflowed counter, in order, with the interval since the last start; exactly those are reloaded, and just the counters with a reset value go on |
| `Athlon.Registers.Start` | x86/op_model_athlon.c:173-189 | the counters with a reset value are made active and the interval begins |
| `Athlon.Registers.Stop` | x86/op_model_athlon.c:192-204 | no counter is active, and nothing else changes |
| `CounterPeriod.Timer.Notify` | driver/timer_int_2.6.35.c:44-66 | one tick of the divider, with its signed count compared as unsigned |
| `CounterPeriod.SamplesPerTicks` | driver/timer_int_2.6.35.c:44-66 | N ticks give N / period samples, and the period is the count asked for if and only if that is not zero and, with 64-bit words, at most 2^31 |
| `CounterPeriod.TimerCanBeEarly` | driver/timer_int_2.6.35.c:44-66 | asked for a sample every 2^31 + 1 ticks, the timer gives one after 2^31 |
| `Rs64.BitAfterWrite` | powerpc/op_model_rs64.c:29-93 | every bit of both registers after a field write |
| `Rs64.FieldsByNumber` | powerpc/op_model_rs64.c:29-93 | the bits of every counter's field |
| `Rs64.OwnBits` | powerpc/op_model_rs64.c:146-153 | later writes of the loop do not disturb an earlier field |
| `Rs64.OtherBits` | powerpc/op_model_rs64.c:146-153 | bits of no enabled counter's field stay as they were |
| `Rs64.StartedIffFits` | powerpc/op_model_rs64.c:146-153 | after the start loop every enabled field holds its own event if and only if each fits its mask, and then no other bit has changed |
| `Rs64.TooWide` | powerpc/op_model_rs64.c:29-93 | an event too wide for one field turns up in the next |
| `Rs64.Monitor.CtrlWrite` | powerpc/op_model_rs64.c:29-93 | the read, change and write of a field, and for a counter number above seven the bare value in the second register |
| `Rs64.Monitor.RegSetup` | powerpc/op_model_rs64.c:99-111 | the reset values are 2^31 minus the counts |
| `Rs64.Monitor.Start` | powerpc/op_model_rs64.c:138-166 | enabled counters are loaded and programmed, the others zeroed, and the freeze bit is cleared last |
| `Rs64.Monitor.HandleInterrupt` | powerpc/op_model_rs64.c:182-220 | one sample per enabled counter that has overflowed, in order, and each overflowed one is reloaded or zeroed; bit 26 is set and bit 31 cleared |
| `Rs64.ThawKeepsFields` | powerpc/op_model_rs64.c:155-163 | clearing the freeze bit touches no field |
| `Power4.FieldsAreDisjoint` | powerpc/op_model_power4.c:53-118 | all packed fields are disjoint |
| `Power4.ImageRoundTrip` | powerpc/op_model_power4.c:120-172 | every one of the 24 fields reads back the low bits of what was put in |
| `Power4.LastWins` | powerpc/op_model_power4.c:219-287 | a multiplexer holds the value of the highest-numbered counter that selects it |
| `Power4.EventsByNumber` | powerpc/op_model_power4.c:53-118 | bit by bit where each counter's five event bits and its adder lane bit lie in the two registers |
| `Power4.MuxesByNumber` | powerpc/op_model_power4.c:219-287 | bit by bit which multiplexer the last unit mask to select it fills, with which of its bits, and that one nobody selects is clear |
| `Power4.Monitor.SetMuxes` | powerpc/op_model_power4.c:219-287 | the loop over the counters computes all eight multiplexers |
| `Power4.Monitor.RegSetup` | powerpc/op_model_power4.c:181-328 | for every configuration of up to 8 counters each field decodes to what is meant, nothing is set outside the fields, and the mode switches are as asked |
| `Power4.SixBits` | powerpc/op_model_power4.c:209-217 | an enabled counter's six event bits are recovered; a disabled one has event 8 with the adder lane bit of its unused event |
| `Mortuary.TaskLists.ProcessTaskMortuary` | driver/buffer_sync.c:498-516 | the dead are freed and the dying become the dead |
| `Mortuary.TaskLists.MarkDone` | driver/buffer_sync.c:519-538 | that happens, and the marks are cleared, if and only if every online CPU is marked |
| `Mortuary.AllSyncedIsARound` | driver/buffer_sync.c:519-538 | once every online CPU has been synced to the end, there has been a round |
| `Mortuary.FreedByRounds` | driver/buffer_sync.c:492-516 | over every run, a task that has ended is dying before the first round, dead before the second and freed after it, exactly |
| `Mortuary.NextKeeps` | driver/buffer_sync.c:492-538 | every step keeps: marked CPUs refer to none of the dead, a CPU being synced does so only in slots still to be read |
| `Mortuary.AlwaysInv` | driver/buffer_sync.c:492-688 | that holds over every run |
| `Mortuary.NeverUsesFreed` | driver/buffer_sync.c:58-75 | in every run no unread slot and no `last_task` refers to a freed process, and `sync_buffer` never looks into one |
| `Mortuary.OneListIsTooFew` | driver/buffer_sync.c:58-66 | a run in which a process is still referred to when it leaves the dying list: one list would not do |
| `Cookies.CookiesAreTrue` | driver/buffer_sync.c:311-443 | a reader that forgets at each CPU switch recovers for every emitted sample the cookie and offset that were looked up, wherever it came from |
| `Cookies.SamplesByPosition` | driver/buffer_sync.c:558-688 | by positions in the batch, which samples leave and as what, and what is counted as lost without an address space, without a mapping, or as a cut trace |
| `Cookies.NotesAreTrue` | driver/buffer_sync.c:311-374 | the records in between: modes, traces, and each process with the cookie of its executable |
| `Cookies.HoldsOne` | driver/buffer_sync.c:427-443 | during a sync at most one address space is held, and context switch records carry its executable's cookie |
| `Cookies.TakenIsReleased` | driver/buffer_sync.c:651-678 | every address space that a sync takes it releases exactly as often |
| `Cookies.Syncer.SyncBuffer` | driver/buffer_sync.c:558-688 | the loop with its local variables and `last_cookie` does what the specification says, statistics included |

## Left out

- Wrap-around of the statistics counters and of timestamps beyond 64 bits: counters are unbounded.
- `oprofile_put_buff`, `oprofile_add_pc` and the module loading record: copies of simpler emitters.
- Failing allocations are outcomes that a step is given; memory management, file system plumbing, number parsing and
  permission checks are not modelled beyond whether the file is open and profiling started.
- Kernels without frame pointers, on which the walk of the kernel stack is empty.
- CPU hotplug, suspend and resume, kernels before 3.3, processor detection and the idle loop replacement.
- `end_sync` in the build without `RRPROFILE`, which frees the lists outside any sync when profiling ends.
- `lookup_dcookie` and `get_exec_dcookie` are functions that the model is given, and an address space is compared by
  identity, so that one freed and allocated again at the same address counts as the same.
- The other backends (`op_model_ppro.c`, `op_model_7450.c`, `op_model_fsl_booke.c`, `powerpc/backtrace.c`): they
  repeat arguments made here.
- `rs64_cpu_setup` and `rs64_stop`, and of POWER4 all but the packing of its registers: writes of fixed values, and
  the reading of addresses out of interrupt registers.
- `p4_start`, `p4_stop` and `p4_check_ctrs` write only counters and CCCRs of their own thread; they are covered by
  what `SessionRestored` allows a session to write, not modelled one by one.
- Pipeline.EndToEnd: takes runs in which every producer call has the room it takes without checking. That is the exact bound: by `ProduceKeepsIff` the first call without it breaks the ring's order and the invariant.
- Refinement.SyncBufferRuns: says nothing of a sync in which a call does not have its room; `SyncBufferIsLabelled` and `SyncBuffer` do.
- Refinement.SyncBufferIsLabelled: is about syncs while the counters run; those of a stop or an adaptation differ only in that timestamps alone come in.
- Lifecycle.Oprofile.ReleaseBuffer: takes release as one operation, although the code leaves the lock between stop and shutdown; `SafeIffGuarded` and `ReleaseGap` are about the pieces.
- Lifecycle.Oprofile.SetTimerCount: takes the test and the switch as one operation, although an open can come in between; `SafeIffGuarded` and `TimerGap` are about the pieces.
- Lifecycle.Oprofile.SetTunable: takes the tests of the depth and the locked write as one operation; among the pieces the write alone can come at any time.
- Lifecycle.AlwaysSafe: is about whole operations one after the other; `SafeIffGuarded` is about any interleaving of their pieces.
- Mortuary.NeverUsesFreed: takes rings that are not overrun, and a process handed over to be freed never runs again.
- Session.WordsAreLabelled: is about x86 counters and the words of the current session; what the event buffer drops can be any tail of them.
