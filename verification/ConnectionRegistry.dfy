/**
  Which connection a device has: the map of tracked entries, the queue to the supervisor and the
  supervisor's table of tasks, as the steps of `start_connection` and `run_supervisor` interleave.
 */
module ConnectionRegistry {
  type Device = nat

  /** One connection attempt; `id` is its identity. */
  datatype Entry = Entry(id: nat, device: Device)

  /** `starting` have been tracked and not handed over yet; `cancelled` have been told to shut down. */
  datatype State = State(
    conns: map<Device, Entry>,
    starting: set<Entry>,
    queue: seq<Entry>,
    tasks: map<nat, Entry>,
    cancelled: set<Entry>,
    nextEntry: nat,
    nextTask: nat)

  datatype Action =
    | Track(device: Device)   // the new entry replaces and cancels an older one
    | Enqueue(e: Entry)       // handed to the supervisor
    | Reject(e: Entry)        // the supervisor's queue is full or closed
    | Spawn                   // the supervisor takes the oldest
    | Reap(task: nat)         // a task has returned or panicked
    | Cancel(e: Entry)        // shutdown asked for by the handle's owner

  predicate Enabled(s: State, a: Action) {
    match a
    case Track(_) => true
    case Enqueue(e) => e in s.starting
    case Reject(e) => e in s.starting
    case Spawn => s.queue != []
    case Reap(t) => t in s.tasks
    case Cancel(_) => true
  }

  /** With `compare`, as the code has it, the entry goes only if it is still the one tracked for its device. */
  function Untrack(conns: map<Device, Entry>, e: Entry, compare: bool): map<Device, Entry> {
    if e.device in conns && (compare ==> conns[e.device] == e) then conns - {e.device} else conns
  }

  function Next(s: State, a: Action, compare: bool): State
    requires Enabled(s, a)
  {
    match a
    case Track(d) =>
      var e := Entry(s.nextEntry, d);
      s.(conns := s.conns[d := e], starting := s.starting + {e}, nextEntry := s.nextEntry + 1,
         cancelled := if d in s.conns then s.cancelled + {s.conns[d]} else s.cancelled)
    case Enqueue(e) => s.(starting := s.starting - {e}, queue := s.queue + [e])
    case Reject(e) => s.(starting := s.starting - {e}, conns := Untrack(s.conns, e, compare))
    case Spawn => s.(queue := s.queue[1..], tasks := s.tasks[s.nextTask := s.queue[0]], nextTask := s.nextTask + 1)
    case Reap(t) => s.(tasks := s.tasks - {t}, conns := Untrack(s.conns, s.tasks[t], compare))
    case Cancel(e) => s.(cancelled := s.cancelled + {e})
  }

  ghost predicate Runs(s: State, acts: seq<Action>, t: State, compare: bool)
    decreases |acts|
  {
    if acts == [] then t == s else Enabled(s, acts[0]) && Runs(Next(s, acts[0], compare), acts[1..], t, compare)
  }

  function Initial(): State { State(map[], {}, [], map[], {}, 0, 0) }

  // ---------------------------------------------------------------- the invariant

  /** The entry's connection has not ended. */
  predicate Live(s: State, e: Entry) { e in s.starting || e in s.queue || exists t :: t in s.tasks && s.tasks[t] == e }

  predicate Tracked(s: State, e: Entry) { e.device in s.conns && s.conns[e.device] == e }

  /** No entry is in two places. */
  predicate Separate(s: State) {
    && (forall e | e in s.starting :: e !in s.queue)
    && (forall i, j | 0 <= i < j < |s.queue| :: s.queue[i] != s.queue[j])
    && (forall t | t in s.tasks :: s.tasks[t] !in s.starting && s.tasks[t] !in s.queue)
    && (forall t, u | t in s.tasks && u in s.tasks && t != u :: s.tasks[t] != s.tasks[u])
  }

  predicate Numbered(s: State) {
    && (forall e | e in s.starting :: e.id < s.nextEntry) && (forall e | e in s.queue :: e.id < s.nextEntry)
    && (forall t | t in s.tasks :: s.tasks[t].id < s.nextEntry && t < s.nextTask)
  }

  /** Every connection that has not ended is the one tracked for its device or has been cancelled. */
  ghost predicate Accounted(s: State) { forall e | Live(s, e) :: Tracked(s, e) || e in s.cancelled }

  /** Nothing is tracked that has ended. */
  predicate NoneStale(s: State) { forall d | d in s.conns :: s.conns[d].device == d && Live(s, s.conns[d]) }

  ghost predicate Inv(s: State) { Separate(s) && Numbered(s) && Accounted(s) && NoneStale(s) }

  lemma Places(s: State, a: Action)
    requires Enabled(s, a) && Separate(s) && Numbered(s)
    ensures Separate(Next(s, a, true)) && Numbered(Next(s, a, true))
  {
    var t := Next(s, a, true);
    if a.Enqueue? { assert forall i | 0 <= i < |s.queue| :: s.queue[i] in s.queue; }
    if a.Spawn? {
      assert s.queue[0] in s.queue && s.queue == [s.queue[0]] + t.queue;
      assert s.queue[0] !in t.queue;
    }
  }

  /** Which entry begins or ends with a step. */
  predicate Begins(s: State, a: Action, e: Entry) { a.Track? && e == Entry(s.nextEntry, a.device) }

  predicate Ends(s: State, a: Action, e: Entry)
    requires Enabled(s, a)
  {
    (a.Reject? && e == a.e) || (a.Reap? && e == s.tasks[a.task])
  }

  lemma LiveAfter(s: State, a: Action, e: Entry)
    requires Enabled(s, a) && Separate(s) && Numbered(s)
    ensures Live(Next(s, a, true), e) <==> (Live(s, e) || Begins(s, a, e)) && !Ends(s, a, e)
  {
    var t := Next(s, a, true);
    match a
    case Reap(k) => ReapedLive(s, k, e);
    case Spawn =>
      assert s.queue == [s.queue[0]] + t.queue;
      assert t.tasks[s.nextTask] == s.queue[0];
      if k :| k in s.tasks && s.tasks[k] == e { assert t.tasks[k] == e; }
    case _ => assert t.tasks == s.tasks;
  }

  lemma ReapedLive(s: State, k: nat, e: Entry)
    requires k in s.tasks && Separate(s)
    ensures Live(Next(s, Reap(k), true), e) <==> Live(s, e) && e != s.tasks[k]
  {
    var t := Next(s, Reap(k), true);
    if u :| u in s.tasks && s.tasks[u] == e { if u != k { assert u in t.tasks && t.tasks[u] == e; } }
  }

  lemma Step(s: State, a: Action)
    requires Enabled(s, a) && Inv(s)
    ensures Inv(Next(s, a, true))
  {
    var t := Next(s, a, true);
    Places(s, a);
    forall e | Live(t, e) ensures Tracked(t, e) || e in t.cancelled {
      LiveAfter(s, a, e);
      if Live(s, e) { assert Tracked(s, e) || e in s.cancelled; }
    }
    forall d | d in t.conns ensures t.conns[d].device == d && Live(t, t.conns[d]) { LiveAfter(s, a, t.conns[d]); }
  }

  lemma {:induction false} RunKeeps(s: State, acts: seq<Action>, t: State)
    requires Runs(s, acts, t, true) && Inv(s)
    ensures Inv(t)
    decreases |acts|
  {
    hide Inv, Next, Enabled;
    if acts != [] {
      Step(s, acts[0]);
      RunKeeps(Next(s, acts[0], true), acts[1..], t);
    }
  }

  // ---------------------------------------------------------------- what runs guarantee

  /**
    In every run a device has at most one connection that has neither ended nor been cancelled, and
    it is the tracked one.
   */
  lemma OneConnection(acts: seq<Action>, s: State, e: Entry, f: Entry)
    requires Runs(Initial(), acts, s, true)
    ensures Live(s, e) ==> Tracked(s, e) || e in s.cancelled
    ensures Live(s, e) && Live(s, f) && e.device == f.device && e !in s.cancelled && f !in s.cancelled ==> e == f
    ensures forall d | d in s.conns :: s.conns[d].device == d && Live(s, s.conns[d])
  {
    RunKeeps(Initial(), acts, s);
  }

  /** A connection that has ended does not come back. */
  lemma {:induction false} EndedStays(s: State, acts: seq<Action>, t: State, e: Entry)
    requires Runs(s, acts, t, true) && Inv(s) && !Live(s, e) && e.id < s.nextEntry
    ensures !Live(t, e)
    decreases |acts|
  {
    if acts != [] {
      Step(s, acts[0]);
      LiveAfter(s, acts[0], e);
      EndedStays(Next(s, acts[0], true), acts[1..], t, e);
    }
  }

  /**
    A tracked connection stays tracked, whatever others do, until a newer one of its device replaces
    it or it ends: reaping or rejecting others never untracks it.
   */
  lemma {:induction false} StaysTracked(s: State, acts: seq<Action>, t: State, e: Entry)
    requires Runs(s, acts, t, true) && Inv(s) && Tracked(s, e) && Live(t, e)
    requires forall i | 0 <= i < |acts| :: acts[i] != Track(e.device)
    ensures Tracked(t, e)
    decreases |acts|
  {
    if acts != [] {
      var m := Next(s, acts[0], true);
      Step(s, acts[0]);
      LiveAfter(s, acts[0], e);
      assert Live(s, e);
      if Ends(s, acts[0], e) { EndedStays(m, acts[1..], t, e); }
      StaysTracked(m, acts[1..], t, e);
    }
  }

  ghost predicate SafeUnder(compare: bool) { forall acts, s | Runs(Initial(), acts, s, compare) :: Accounted(s) }

  ghost predicate Reaches(s: State) { exists acts :: Runs(Initial(), acts, s, false) }

  lemma {:induction false} RunsThen(s: State, acts: seq<Action>, t: State, a: Action)
    requires Runs(s, acts, t, false) && Enabled(t, a)
    ensures Runs(s, acts + [a], Next(t, a, false), false)
    decreases |acts|
  {
    hide Enabled, Next;
    if acts == [] {
      assert [a][1..] == [];
      assert Runs(Next(s, a, false), [], Next(s, a, false), false);
    } else {
      assert (acts + [a])[0] == acts[0] && (acts + [a])[1..] == acts[1..] + [a];
      RunsThen(Next(s, acts[0], false), acts[1..], t, a);
    }
  }

  lemma Then(s: State, a: Action)
    requires Reaches(s) && Enabled(s, a)
    ensures Reaches(Next(s, a, false))
  {
    hide Enabled, Next;
    var acts :| Runs(Initial(), acts, s, false);
    RunsThen(Initial(), acts, s, a);
  }

  /** Reaping the first of two connections of a device would forget the second. */
  lemma BlindReapBreaks()
    ensures !SafeUnder(false)
  {
    var s := Initial();
    assert Runs(s, [], s, false);
    assert Reaches(s);
    hide Runs, Reaches, SafeUnder;
    Then(s, Track(0));
    s := Next(s, Track(0), false);
    Then(s, Enqueue(Entry(0, 0)));
    s := Next(s, Enqueue(Entry(0, 0)), false);
    Then(s, Spawn);
    s := Next(s, Spawn, false);
    Then(s, Track(0));
    s := Next(s, Track(0), false);
    Then(s, Reap(0));
    s := Next(s, Reap(0), false);
    assert Live(s, Entry(1, 0)) && !Tracked(s, Entry(1, 0)) && Entry(1, 0) !in s.cancelled;
    Refute(s);
  }

  lemma Refute(s: State)
    requires Reaches(s) && !Accounted(s)
    ensures !SafeUnder(false)
  {
    hide Runs, Accounted;
    var acts :| Runs(Initial(), acts, s, false);
  }

  /** Every connection stays accounted for exactly because an ending one compares entries before it untracks. */
  lemma AccountedExactly(compare: bool)
    ensures SafeUnder(compare) <==> compare
  {
    if compare {
      forall acts, s | Runs(Initial(), acts, s, true) ensures Accounted(s) { RunKeeps(Initial(), acts, s); }
    } else {
      BlindReapBreaks();
    }
  }

  // ---------------------------------------------------------------- the registry as an object

  class Registry {
    var conns: map<Device, Entry>
    var starting: set<Entry>
    var queue: seq<Entry>
    var tasks: map<nat, Entry>
    var cancelled: set<Entry>
    var nextEntry: nat
    var nextTask: nat
    const capacity: nat

    function View(): State
      reads this
    {
      State(conns, starting, queue, tasks, cancelled, nextEntry, nextTask)
    }

    constructor (capacity: nat)
      ensures View() == Initial() && this.capacity == capacity
    {
      conns, starting, queue, tasks, cancelled, nextEntry, nextTask := map[], {}, [], map[], {}, 0, 0;
      this.capacity := capacity;
    }

    method Register(device: Device) returns (e: Entry)
      modifies this
      ensures View() == Next(old(View()), Track(device), true)
      ensures Tracked(View(), e) && e in starting && e.device == device
    {
      e := Entry(nextEntry, device);
      if device in conns { cancelled := cancelled + {conns[device]}; }
      conns := conns[device := e];
      starting := starting + {e};
      nextEntry := nextEntry + 1;
    }

    /** Handed over, or refused when the queue is full or closed. */
    method HandOver(e: Entry, open: bool) returns (ok: bool)
      requires e in starting
      modifies this
      ensures ok <==> open && old(|queue|) < capacity
      ensures View() == Next(old(View()), if ok then Enqueue(e) else Reject(e), true)
    {
      ok := open && |queue| < capacity;
      starting := starting - {e};
      if ok { queue := queue + [e]; } else { Forget(e); }
    }

    method Forget(e: Entry)
      modifies this`conns
      ensures conns == Untrack(old(conns), e, true)
    {
      if e.device in conns && conns[e.device] == e { conns := conns - {e.device}; }
    }

    method SpawnNext() returns (task: nat)
      requires queue != []
      modifies this
      ensures View() == Next(old(View()), Spawn, true) && task in tasks && tasks[task] == old(queue[0])
    {
      task, nextTask := nextTask, nextTask + 1;
      tasks := tasks[task := queue[0]];
      queue := queue[1..];
    }

    /** A task has returned or panicked; one that is not in the table is ignored. */
    method ReapTask(task: nat)
      modifies this
      ensures View() == if task in old(tasks) then Next(old(View()), Reap(task), true) else old(View())
    {
      if task !in tasks { return; }
      var e := tasks[task];
      tasks := tasks - {task};
      Forget(e);
    }
  }
}
