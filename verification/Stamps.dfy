/** The timestamps: what a daemon parses from the words of a batch are the kinds and times of
  * the calls that logged them, in order. */
module Stamps {
  import opened Wrappers
  import opened Sequences
  import opened EventStream
  import opened CpuBuffer
  import opened BufferSync
  import opened SyncBuffer

  type TimeStamp = (StampKind, nat)

  function StampsOf(rs: seq<Record>): seq<TimeStamp> {
    if rs == [] then []
    else
      var last := rs[|rs| - 1];
      StampsOf(rs[..|rs| - 1]) + if last.Timestamp? then [(last.kind, last.time)] else []
  }

  function StampCalls(cs: seq<Call>): seq<TimeStamp>
    decreases |cs|
  {
    if cs == [] then [] else (if cs[0].Stamp? then [(cs[0].kind, cs[0].time)] else []) + StampCalls(cs[1..])
  }

  /** A timestamp call leaves in the stream the timestamp it was given, of its kind, whatever
    * state the sync is in. */
  lemma StampIsEmitted(a: Arch, bt: bool, q: Queue, s: SyncState, kind: StampKind, time: nat)
    ensures EmitAll(a, s, Appended(a, bt, q, Stamp(kind, time))) == [Timestamp(kind, time)]
    ensures SyncAll(a, s, Appended(a, bt, q, Stamp(kind, time))) == s
  {
    var e := Code(a, StampEvent(kind), time);
    assert [e][..0] == [];
    assert EmitOne(a, s, e) == [Timestamp(kind, time)];
  }

  /** The timestamps among ring entries. */
  function StampsIn(a: Arch, es: seq<OpSample>): seq<TimeStamp> {
    if es == [] then [] else StampsIn(a, es[..|es| - 1]) + StampsOf(EmitOne(a, SYNC_INIT, es[|es| - 1]))
  }

  lemma StampsOfOne(r: Record)
    ensures StampsOf([r]) == if r.Timestamp? then [(r.kind, r.time)] else []
  {
    assert [r][..0] == [];
  }

  lemma {:induction false} StampsOfConcat(xs: seq<Record>, ys: seq<Record>)
    ensures StampsOf(xs + ys) == StampsOf(xs) + StampsOf(ys)
  {
    if ys == [] {
      assert xs + ys == xs;
    } else {
      StampsOfConcat(xs, ys[..|ys| - 1]);
      assert (xs + ys)[..|xs + ys| - 1] == xs + ys[..|ys| - 1];
    }
  }

  lemma {:induction false} StampsInConcat(a: Arch, xs: seq<OpSample>, ys: seq<OpSample>)
    ensures StampsIn(a, xs + ys) == StampsIn(a, xs) + StampsIn(a, ys)
  {
    if ys == [] {
      assert xs + ys == xs;
    } else {
      StampsInConcat(a, xs, ys[..|ys| - 1]);
      assert (xs + ys)[..|xs + ys| - 1] == xs + ys[..|ys| - 1];
      Assoc(StampsIn(a, xs), StampsIn(a, ys[..|ys| - 1]), StampsOf(EmitOne(a, SYNC_INIT, ys[|ys| - 1])));
    }
  }

  lemma EmitOneStamps(a: Arch, s: SyncState, e: OpSample)
    ensures StampsOf(EmitOne(a, s, e)) == StampsOf(EmitOne(a, SYNC_INIT, e))
  {
  }

  lemma {:induction false} EmitAllStamps(a: Arch, s: SyncState, es: seq<OpSample>)
    ensures StampsOf(EmitAll(a, s, es)) == StampsIn(a, es)
  {
    if es != [] {
      var init, last := es[..|es| - 1], es[|es| - 1];
      EmitAllStamps(a, s, init);
      StampsOfConcat(EmitAll(a, s, init), EmitOne(a, SyncAll(a, s, init), last));
      EmitOneStamps(a, SyncAll(a, s, init), last);
    }
  }

  /** No entry of a sample is a timestamp. */
  predicate NoStamp(a: Arch, e: OpSample) {
    IsCode(a, e) ==> e.event <= RR_CPU_CTX_TID
  }

  lemma {:induction false} NoneInThese(a: Arch, es: seq<OpSample>)
    requires forall i :: 0 <= i < |es| ==> NoStamp(a, es[i])
    ensures StampsIn(a, es) == []
  {
    if es != [] {
      NoneInThese(a, es[..|es| - 1]);
      var e := es[|es| - 1];
      assert NoStamp(a, e);
      if EmitOne(a, SYNC_INIT, e) != [] {
        StampsOfOne(EmitOne(a, SYNC_INIT, e)[0]);
        assert EmitOne(a, SYNC_INIT, e) == [EmitOne(a, SYNC_INIT, e)[0]];
      }
    }
  }

  lemma StampsOfCall(a: Arch, bt: bool, q: Queue, c: Call)
    ensures StampsIn(a, Appended(a, bt, q, c)) == if c.Stamp? then [(c.kind, c.time)] else []
  {
    if c.Stamp? {
      EmitAllStamps(a, SYNC_INIT, Appended(a, bt, q, c));
      StampIsEmitted(a, bt, q, SYNC_INIT, c.kind, c.time);
      StampsOfOne(Timestamp(c.kind, c.time));
    } else {
      NoneInThese(a, Appended(a, bt, q, c));
    }
  }

  lemma {:induction false} StampsOfCalls(a: Arch, bt: bool, q: Queue, cs: seq<Call>)
    ensures StampsIn(a, AppendedAll(a, bt, q, cs)) == StampCalls(cs)
    decreases |cs|
  {
    if cs != [] {
      var q' := Handle(a, bt, q, cs[0]);
      StampsOfCall(a, bt, q, cs[0]);
      StampsOfCalls(a, bt, q', cs[1..]);
      StampsInConcat(a, Appended(a, bt, q, cs[0]), AppendedAll(a, bt, q', cs[1..]));
    }
  }

  lemma {:induction false} AppendedIsStorable(a: Arch, bt: bool, q: Queue, cs: seq<Call>)
    requires AllSane(a, cs)
    ensures AllStorable(a, AppendedAll(a, bt, q, cs))
    decreases |cs|
  {
    if cs != [] {
      AppendedStorable(a, bt, q, cs[0]);
      AppendedIsStorable(a, bt, Handle(a, bt, q, cs[0]), cs[1..]);
    }
  }

  /** The timestamps parsed from the words of a batch are those of its calls. */
  lemma BatchStamps(a: Arch, bt: bool, cpu: nat, q: Queue, cs: seq<Call>)
    requires AllSane(a, cs) && cpu < a.WordLimit()
    ensures var words := PrintAll(a, BatchRecords(a, cpu, AppendedAll(a, bt, q, cs)));
            StampsOf(Parse(a, words).records) == StampCalls(cs)
  {
    var es := AppendedAll(a, bt, q, cs);
    AppendedIsStorable(a, bt, q, cs);
    EmitAllEncodable(a, SYNC_INIT, es);
    RoundTrip(a, BatchRecords(a, cpu, es));
    StampsOfConcat([CpuSwitch(cpu)], EmitAll(a, SYNC_INIT, es));
    StampsOfOne(CpuSwitch(cpu));
    EmitAllStamps(a, SYNC_INIT, es);
    StampsOfCalls(a, bt, q, cs);
  }
}
