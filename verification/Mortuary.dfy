/** When a task that has ended may be freed, in the build without RRPROFILE, whose ring slots
  * hold task pointers (driver/buffer_sync.c). A task waits on the list of the dying and then
  * on that of the dead, and moves along whenever every CPU has been synced since the last
  * time. */
module Mortuary {
  import opened Wrappers

  type Task = nat

  /** Where the one sync_buffer stands that may hold buffer_mutex: it has the mutex, has
    * read the head (with so many slots left to read), or has also reset the producers'
    * fields. */
  datatype Phase = Idle | Locked(cpu: nat) | Reading(cpu: nat, left: nat) | Draining(cpu: nat, left: nat)

  /** The slots of each CPU's ring, Some for a task pointer, and its last_task. */
  datatype State = State(online: set<nat>, queues: map<nat, seq<Option<Task>>>, last: map<nat, Option<Task>>,
                         lists: Lists, phase: Phase)

  datatype Lists = Lists(dying: set<Task>, dead: set<Task>, freed: set<Task>, marked: set<nat>)

  datatype Event =
    | Log(cpu: nat, task: Task)
    | End(task: Task)
    | Lock(cpu: nat)
    | ReadHead
    | Reset
    | Drain
    | MarkDone

  // ---- the lists in the driver's form ----

  function ProcessedMortuary(l: Lists): Lists {
    l.(freed := l.freed + l.dead, dead := l.dying, dying := {})
  }

  function Marked(l: Lists, online: set<nat>, cpu: nat): Lists {
    var m := l.(marked := l.marked + {cpu});
    if online <= m.marked then ProcessedMortuary(m).(marked := {}) else m
  }

  class TaskLists {
    var dying: set<Task>
    var dead: set<Task>
    var freed: set<Task>
    var marked: set<nat>

    ghost function Abs(): Lists
      reads this
    {
      Lists(dying, dead, freed, marked)
    }

    /** process_task_mortuary. */
    method ProcessTaskMortuary()
      modifies `dying, `dead, `freed
      ensures Abs() == ProcessedMortuary(old(Abs()))
    {
      var localDead := dead;
      dead := {};
      dead := dead + dying;
      dying := {};
      while localDead != {}
        invariant dead == old(dying) && dying == {} && freed + localDead == old(freed) + old(dead)
      {
        var task :| task in localDead;
        localDead := localDead - {task};
        freed := freed + {task};
      }
    }

    /** mark_done, over the CPUs that are online. */
    method MarkDone(online: seq<nat>, cpu: nat)
      modifies this
      ensures Abs() == Marked(old(Abs()), (set c | c in online), cpu)
    {
      marked := marked + {cpu};
      for i := 0 to |online|
        invariant Abs() == old(Abs()).(marked := old(marked) + {cpu})
        invariant forall j :: 0 <= j < i ==> online[j] in marked
      {
        if online[i] !in marked {
          return;
        }
      }
      ProcessTaskMortuary();
      marked := {};
    }
  }

  // ---- one step ----

  /** Neither handed over to be freed nor freed: only such a task runs. */
  predicate Live(l: Lists, t: Task) {
    t !in l.dying && t !in l.dead && t !in l.freed
  }

  predicate Enabled(s: State, e: Event) {
    match e
    case Log(cpu, task) => cpu in s.online && Live(s.lists, task)
    case End(task) => Live(s.lists, task)
    case Lock(cpu) => s.phase == Idle && cpu in s.online
    case ReadHead => s.phase.Locked?
    case Reset => s.phase.Reading?
    case Drain => s.phase.Draining? && s.phase.left > 0
    case MarkDone => s.phase.Draining? && s.phase.left == 0
  }

  predicate Shaped(s: State) {
    && s.queues.Keys == s.last.Keys == s.online
    && (s.phase != Idle ==> s.phase.cpu in s.online)
    && (s.phase.Reading? || s.phase.Draining? ==> s.phase.left <= |s.queues[s.phase.cpu]|)
  }

  function Next(s: State, e: Event): State
    requires Shaped(s) && Enabled(s, e)
  {
    match e
    case Log(cpu, task) =>
      var note := if s.last[cpu] != Some(task) then [Some(task)] else [];
      s.(queues := s.queues[cpu := s.queues[cpu] + note + [None]], last := s.last[cpu := Some(task)])
    case End(task) => s.(lists := s.lists.(dying := s.lists.dying + {task}))
    case Lock(cpu) => s.(phase := Locked(cpu))
    case ReadHead => s.(phase := Reading(s.phase.cpu, |s.queues[s.phase.cpu]|))
    case Reset => s.(phase := Draining(s.phase.cpu, s.phase.left), last := s.last[s.phase.cpu := None])
    case Drain =>
      var c := s.phase.cpu;
      s.(phase := Draining(c, s.phase.left - 1), queues := s.queues[c := s.queues[c][1..]])
    case MarkDone => s.(phase := Idle, lists := Marked(s.lists, s.online, s.phase.cpu))
  }

  // ---- the invariant ----

  predicate Mentions(q: seq<Option<Task>>, t: Task) {
    Some(t) in q
  }

  /** A CPU that refers to a task, from a slot not yet read or as the one it ran last. */
  predicate Refers(s: State, c: nat, t: Task)
    requires Shaped(s) && c in s.online
  {
    Mentions(s.queues[c], t) || s.last[c] == Some(t)
  }

  predicate Apart(l: Lists) {
    l.dying !! l.dead && l.dying !! l.freed && l.dead !! l.freed
  }

  /** A marked CPU has left all the dead behind. */
  predicate MarkedForget(s: State)
    requires Shaped(s)
  {
    forall c, t :: c in s.lists.marked && c in s.online && t in s.lists.dead ==> !Refers(s, c, t)
  }

  /** The CPU being synced refers to the dead in the slots still to be read alone, and once
    * it is reset not as its last task either. */
  predicate SyncForgets(s: State)
    requires Shaped(s)
  {
    && (s.phase.Reading? || s.phase.Draining? ==>
          forall t :: t in s.lists.dead ==> !Mentions(s.queues[s.phase.cpu][s.phase.left..], t))
    && (s.phase.Draining? ==> forall t :: t in s.lists.dead ==> s.last[s.phase.cpu] != Some(t))
  }

  predicate FreedIsForgotten(s: State)
    requires Shaped(s)
  {
    forall c, t :: c in s.online && t in s.lists.freed ==> !Refers(s, c, t)
  }

  predicate Inv(s: State) {
    Shaped(s) && Apart(s.lists) && MarkedForget(s) && SyncForgets(s) && FreedIsForgotten(s)
  }

  function Initial(online: set<nat>): State {
    State(online, map c | c in online :: [], map c | c in online :: None, Lists({}, {}, {}, {}), Idle)
  }

  lemma NextKeeps(s: State, e: Event)
    requires Inv(s) && Enabled(s, e)
    ensures Inv(Next(s, e))
  {
    match e {
      case Log(_, _) =>
      case End(_) =>
      case Lock(_) =>
      case ReadHead =>
      case Reset =>
      case Drain => DrainKeeps(s);
      case MarkDone => MarkKeeps(s);
    }
  }

  lemma DrainKeeps(s: State)
    requires Inv(s) && Enabled(s, Drain)
    ensures Inv(Next(s, Drain))
  {
    var q := s.queues[s.phase.cpu];
    assert q[1..][s.phase.left - 1..] == q[s.phase.left..];
    assert forall t :: Mentions(q[1..], t) ==> Mentions(q, t);
  }

  lemma MarkKeeps(s: State)
    requires Inv(s) && Enabled(s, MarkDone)
    ensures Inv(Next(s, MarkDone))
  {
    assert s.queues[s.phase.cpu][0..] == s.queues[s.phase.cpu];
  }

  // ---- whole runs ----

  predicate Possible(s: State, es: seq<Event>)
    requires Shaped(s)
    decreases |es|
  {
    es == [] || (Enabled(s, es[0]) && Shaped(Next(s, es[0])) && Possible(Next(s, es[0]), es[1..]))
  }

  function After(s: State, es: seq<Event>): (r: State)
    requires Shaped(s) && Possible(s, es)
    ensures Shaped(r)
    decreases |es|
  {
    if es == [] then s else After(Next(s, es[0]), es[1..])
  }

  lemma {:induction false} AlwaysInv(s: State, es: seq<Event>)
    requires Inv(s) && Possible(s, es)
    ensures Inv(After(s, es))
    decreases |es|
  {
    if es != [] {
      NextKeeps(s, es[0]);
      AlwaysInv(Next(s, es[0]), es[1..]);
    }
  }

  /** In every run, with any number of CPUs logging at any time, a freed task is referred to
    * by no unread slot and no last_task, and the next slot that sync_buffer looks into does
    * not point to one. */
  lemma NeverUsesFreed(online: set<nat>, es: seq<Event>)
    requires Possible(Initial(online), es)
    ensures var s := After(Initial(online), es);
            && (forall c, t :: c in online && t in s.lists.freed ==> c in s.online && !Refers(s, c, t))
            && (Enabled(s, Drain) ==> forall t :: s.queues[s.phase.cpu][0] == Some(t) ==> t !in s.lists.freed)
  {
    AlwaysInv(Initial(online), es);
    SameCpus(Initial(online), es);
    var s := After(Initial(online), es);
    if Enabled(s, Drain) && s.queues[s.phase.cpu][0].Some? {
      assert Mentions(s.queues[s.phase.cpu], s.queues[s.phase.cpu][0].value);
    }
  }

  lemma {:induction false} SameCpus(s: State, es: seq<Event>)
    requires Shaped(s) && Possible(s, es)
    ensures After(s, es).online == s.online
    decreases |es|
  {
    if es != [] {
      SameCpus(Next(s, es[0]), es[1..]);
    }
  }

  // ---- and every dead task is freed ----

  /** How often in a run all online CPUs have been marked. */
  function Rounds(s: State, es: seq<Event>): nat
    requires Shaped(s) && Possible(s, es)
    decreases |es|
  {
    if es == [] then 0
    else
      (if es[0].MarkDone? && s.online <= s.lists.marked + {s.phase.cpu} then 1 else 0)
      + Rounds(Next(s, es[0]), es[1..])
  }

  /** The CPUs that a run has synced to the end. */
  function Synced(s: State, es: seq<Event>): set<nat>
    requires Shaped(s) && Possible(s, es)
    decreases |es|
  {
    if es == [] then {} else (if es[0].MarkDone? then {s.phase.cpu} else {}) + Synced(Next(s, es[0]), es[1..])
  }

  /** Each round moves a task that has ended one list on, and nothing else does: it is freed with
    * the second. */
  lemma {:induction false} FreedByRounds(s: State, es: seq<Event>, t: Task)
    requires Inv(s) && Possible(s, es) && (t in s.lists.dying || t in s.lists.dead || t in s.lists.freed)
    ensures var l, n := After(s, es).lists, Rounds(s, es) + Age(s, t);
            && (t in l.dying <==> n == 0) && (t in l.dead <==> n == 1) && (t in l.freed <==> n >= 2)
    decreases |es|
  {
    if es != [] {
      NextKeeps(s, es[0]);
      FreedByRounds(Next(s, es[0]), es[1..], t);
    }
  }

  /** How many lists a task has behind it. */
  function Age(s: State, t: Task): nat {
    if t in s.lists.freed then 2 else if t in s.lists.dead then 1 else 0
  }

  /** Once every online CPU has been synced, there has been a round. */
  lemma {:induction false} AllSyncedIsARound(s: State, es: seq<Event>)
    requires Shaped(s) && Possible(s, es)
    ensures Rounds(s, es) == 0 ==> s.lists.marked + Synced(s, es) <= After(s, es).lists.marked
    ensures Rounds(s, es) == 0 && Synced(s, es) != {} ==> !(s.online <= s.lists.marked + Synced(s, es))
    decreases |es|
  {
    if es != [] {
      AllSyncedIsARound(Next(s, es[0]), es[1..]);
      assert Next(s, es[0]).online == s.online;
    }
  }

  /** One list would not do: a task can end while a sync that has read the head already
    * is still under way, and then be referred to when all CPUs are marked. */
  lemma OneListIsTooFew() returns (es: seq<Event>)
    ensures Possible(Initial({0}), es)
    ensures var s := After(Initial({0}), es); 7 in s.lists.dead && 0 in s.online && Refers(s, 0, 7)
  {
    var s0 := Initial({0});
    var s1 := Next(s0, Lock(0));
    var s2 := Next(s1, ReadHead);
    var s3 := Next(s2, Log(0, 7));
    var s4 := Next(s3, Reset);
    var s5 := Next(s4, End(7));
    assert s3.queues[0][0] == Some(7);
    Before(s5, MarkDone, []);
    Before(s4, End(7), [MarkDone] + []);
    Before(s3, Reset, [End(7)] + ([MarkDone] + []));
    Before(s2, Log(0, 7), [Reset] + ([End(7)] + ([MarkDone] + [])));
    Before(s1, ReadHead, [Log(0, 7)] + ([Reset] + ([End(7)] + ([MarkDone] + []))));
    es := [Lock(0)] + ([ReadHead] + ([Log(0, 7)] + ([Reset] + ([End(7)] + ([MarkDone] + [])))));
    Before(s0, Lock(0), es[1..]);
    assert es == [Lock(0)] + es[1..];
    assert es[1..] == [ReadHead] + ([Log(0, 7)] + ([Reset] + ([End(7)] + ([MarkDone] + []))));
  }

  lemma Before(s: State, e: Event, es: seq<Event>)
    requires Shaped(s) && Enabled(s, e) && Shaped(Next(s, e)) && Possible(Next(s, e), es)
    ensures Possible(s, [e] + es) && After(s, [e] + es) == After(Next(s, e), es)
  {
    assert ([e] + es)[1..] == es;
  }
}
