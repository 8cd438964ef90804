/**
  Block numbers under concurrency: tasks that allocate and tasks that commit, step by step.

  Both rewrite the one `mx` row.  `history` lists the values of that row since the last crash; a
  crash falls back to any of them from `durable` on.  Every request to the store may fail, whether it
  has taken effect or not, and a task may be dropped while it waits.
 */
module SeqAllocator {
  import opened Prelude
  import opened StoreKeys
  import opened FolderModel

  /** The `mx` row. */
  datatype Meta = Meta(maxSequence: nat, nextBlockseq: Option<nat>)

  datatype Task =
    | Idle
    | Waiting              // allocate: the reservation was used up
    | Holding              // allocate: has the lock
    | Read(meta: Meta)     // allocate: has read the row
    | Put(base: nat)       // allocate: has written the new reservation
    | Flushed(base: nat)   // allocate: has flushed it
    | Committing           // commit: has the lock, if it takes it
    | Loaded(meta: Meta)   // commit: has read the row

  /** `open` counts the reservations written since the range was last set. */
  datatype State = State(
    history: seq<Meta>,
    durable: nat,
    range: Range,
    open: nat,
    lock: Option<nat>,
    tasks: map<nat, Task>,
    given: seq<nat>)

  predicate Shaped(s: State) { s.durable < |s.history| }

  function Row(s: State): Meta
    requires Shaped(s)
  {
    s.history[|s.history| - 1]
  }

  function TaskOf(s: State, t: nat): Task { if t in s.tasks then s.tasks[t] else Idle }

  datatype Action =
    | Fast(t: nat)
    | Slow(t: nat)
    | Lock(t: nat)
    | Recheck(t: nat)
    | ReadRow(t: nat)
    | PutRow(t: nat)
    | FlushRow(t: nat)
    | Install(t: nat)
    | BeginCommit(t: nat)
    | LoadRow(t: nat)
    | CommitRow(t: nat)
    | Fail(t: nat)
    | Background(k: nat)
    | Crash(k: nat)

  function Next0(m: Meta): nat { if m.nextBlockseq.Some? then m.nextBlockseq.value else 0 }

  /** With `locked`, commits take the lock too, as the code has it. */
  predicate Enabled(s: State, a: Action, locked: bool) {
    && Shaped(s)
    && match a
       case Fast(t) => TaskOf(s, t).Idle? && s.range.next < s.range.end
       case Slow(t) => TaskOf(s, t).Idle? && s.range.next >= s.range.end
       case Lock(t) => TaskOf(s, t).Waiting? && s.lock.None?
       case Recheck(t) => TaskOf(s, t).Holding? && s.range.next < s.range.end
       case ReadRow(t) => TaskOf(s, t).Holding? && s.range.next >= s.range.end
       case PutRow(t) => TaskOf(s, t).Read?
       case FlushRow(t) => TaskOf(s, t).Put?
       case Install(t) => TaskOf(s, t).Flushed?
       case BeginCommit(t) => TaskOf(s, t).Idle? && (locked ==> s.lock.None?)
       case LoadRow(t) => TaskOf(s, t).Committing?
       case CommitRow(t) => TaskOf(s, t).Loaded?
       case Fail(t) => !TaskOf(s, t).Idle? && !TaskOf(s, t).Flushed?
       case Background(k) => s.durable <= k < |s.history|
       case Crash(k) => s.durable <= k < |s.history|
  }

  function Set(s: State, t: nat, task: Task): State { s.(tasks := s.tasks[t := task]) }

  /** The next reserved number goes out. */
  function Give(s: State, t: nat): State {
    Set(s, t, Idle).(range := s.range.(next := s.range.next + 1), given := s.given + [s.range.next])
  }

  function Next(s: State, a: Action, locked: bool): State
    requires Enabled(s, a, locked)
  {
    match a
    case Fast(t) => Give(s, t)
    case Slow(t) => Set(s, t, Waiting)
    case Lock(t) => Set(s, t, Holding).(lock := Some(t))
    case Recheck(t) => Give(s, t).(lock := None)
    case ReadRow(t) => Set(s, t, Read(Row(s)))
    case PutRow(t) =>
      var m := s.tasks[t].meta;
      var base := RefillBase(m.nextBlockseq);
      Set(s, t, Put(base)).(history := s.history + [m.(nextBlockseq := Some(base + RESERVATION_N))], open := s.open + 1)
    case FlushRow(t) => Set(s, t, Flushed(s.tasks[t].base)).(durable := |s.history| - 1)
    case Install(t) =>
      var base := s.tasks[t].base;
      Set(s, t, Idle).(range := Range(base + 1, base + RESERVATION_N), open := 0, given := s.given + [base],
                       lock := None)
    case BeginCommit(t) => Set(s, t, Committing).(lock := if locked then Some(t) else s.lock)
    case LoadRow(t) => Set(s, t, Loaded(Row(s)))
    case CommitRow(t) =>
      var m := s.tasks[t].meta;
      Set(s, t, Idle).(history := s.history + [m.(maxSequence := m.maxSequence + 1)],
                       lock := if locked then None else s.lock)
    case Fail(t) => Set(s, t, Idle).(lock := if s.lock == Some(t) then None else s.lock)
    case Background(k) => s.(durable := k)
    case Crash(k) =>
      State(s.history[..k + 1], k, Range(Next0(s.history[k]), Next0(s.history[k])), 0, None, map[], s.given)
  }

  ghost predicate Runs(s: State, acts: seq<Action>, t: State, locked: bool)
    decreases |acts|
  {
    if acts == [] then t == s
    else Enabled(s, acts[0], locked) && Runs(Next(s, acts[0], locked), acts[1..], t, locked)
  }

  function Initial(): State { State([Meta(0, None)], 0, Range(0, 0), 0, None, map[], []) }

  // ---------------------------------------------------------------- the invariant

  /** Tasks that hold the lock. */
  predicate Locking(task: Task) { !task.Idle? && !task.Waiting? }

  predicate LockOk(s: State) { forall t | t in s.tasks && Locking(s.tasks[t]) :: s.lock == Some(t) }

  /** The counter after `i` reservations on a range that ends at `end`. */
  function Counter(end: nat, i: nat): nat { if i == 0 then end else RefillBase(Some(end)) + RESERVATION_N * i }

  predicate Level(s: State, m: Meta) { exists i: nat :: i <= s.open && Next0(m) == Counter(s.range.end, i) }

  /** Every fallback has the counter that some of the open reservations have led to, the row that of all. */
  predicate RowsOk(s: State)
    requires Shaped(s)
  {
    && Next0(Row(s)) == Counter(s.range.end, s.open)
    && forall k | s.durable <= k < |s.history| :: Level(s, s.history[k])
  }

  predicate TaskOk(s: State, task: Task)
    requires Shaped(s)
  {
    match task
    case Read(m) => m == Row(s) && s.range.next == s.range.end
    case Put(base) => Behind(s, base)
    case Flushed(base) => Behind(s, base) && s.durable == |s.history| - 1
    case Loaded(m) => m == Row(s)
    case _ => true
  }

  /** The row is ahead of the range, which is used up. */
  predicate Behind(s: State, base: nat)
    requires Shaped(s)
  {
    base >= MIN_BLOCK_SEQ && base >= s.range.end && s.open > 0 && Next0(Row(s)) == base + RESERVATION_N
  }

  predicate RangeOk(s: State) {
    && s.range.next <= s.range.end < s.range.next + RESERVATION_N
    && (s.range.next < s.range.end ==> s.range.next >= MIN_BLOCK_SEQ && s.open == 0)
  }

  predicate GivenOk(s: State) {
    && (forall i | 0 <= i < |s.given| :: MIN_BLOCK_SEQ <= s.given[i] < s.range.next)
    && forall i, j | 0 <= i < j < |s.given| :: s.given[i] < s.given[j]
  }

  predicate Inv(s: State) {
    Shaped(s) && LockOk(s) && RowsOk(s) && RangeOk(s) && GivenOk(s) && forall t | t in s.tasks :: TaskOk(s, s.tasks[t])
  }

  lemma GiveKeeps(s: State, t: nat, u: State)
    requires Inv(s) && s.range.next < s.range.end && (TaskOf(s, t).Idle? || TaskOf(s, t).Holding?)
    requires u == Give(s, t) || (u == Give(s, t).(lock := None) && s.lock == Some(t))
    ensures Inv(u)
  {
    hide Counter;
    forall x | x in u.tasks ensures TaskOk(u, u.tasks[x]) { if x != t { assert TaskOk(s, s.tasks[x]); } }
    forall k | u.durable <= k < |u.history| ensures Level(u, u.history[k]) { assert Level(s, s.history[k]); }
  }

  /** A task moves and nothing else does. */
  lemma MoveKeeps(s: State, t: nat, task: Task, lock: Option<nat>)
    requires Inv(s) && TaskOk(s, task)
    requires lock == s.lock || s.lock.None? || (s.lock == Some(t) && !Locking(task))
    requires Locking(task) ==> lock == Some(t)
    ensures Inv(Set(s, t, task).(lock := lock))
  {
    hide Counter;
    var u := Set(s, t, task).(lock := lock);
    forall x | x in u.tasks ensures TaskOk(u, u.tasks[x]) { if x != t { assert TaskOk(s, s.tasks[x]); } }
    forall k | u.durable <= k < |u.history| ensures Level(u, u.history[k]) { assert Level(s, s.history[k]); }
  }

  /** Another value of the row, with all reservations so far in it. */
  lemma RowAppended(s: State, m: Meta, u: State)
    requires Inv(s) && u.history == s.history + [m] && u.durable == s.durable && u.range == s.range
    requires s.open <= u.open && Next0(m) == Counter(u.range.end, u.open)
    ensures Shaped(u) && RowsOk(u)
  {
    hide Counter;
    forall k | u.durable <= k < |u.history| ensures Level(u, u.history[k]) {
      if k < |s.history| {
        assert u.history[k] == s.history[k] && Level(s, s.history[k]);
        var i: nat :| i <= s.open && Next0(s.history[k]) == Counter(s.range.end, i);
        assert i <= u.open;
      } else {
        assert u.history[k] == m && u.open <= u.open;
      }
    }
  }

  lemma PutKeeps(s: State, t: nat)
    requires Inv(s) && TaskOf(s, t).Read?
    ensures Inv(Next(s, PutRow(t), true))
  {
    var u := Next(s, PutRow(t), true);
    assert TaskOk(s, s.tasks[t]) && s.lock == Some(t);
    RowAppended(s, Row(u), u);
    forall x | x in u.tasks ensures TaskOk(u, u.tasks[x]) { if x != t { assert !Locking(s.tasks[x]); } }
  }

  lemma FlushKeeps(s: State, t: nat)
    requires Inv(s) && TaskOf(s, t).Put?
    ensures Inv(Next(s, FlushRow(t), true))
  {
    var u := Next(s, FlushRow(t), true);
    assert TaskOk(s, s.tasks[t]) && s.lock == Some(t);
    forall x | x in u.tasks ensures TaskOk(u, u.tasks[x]) { if x != t { assert !Locking(s.tasks[x]); } }
    assert Level(s, Row(s));
    assert Level(u, Row(u));
  }

  lemma InstallKeeps(s: State, t: nat)
    requires Inv(s) && TaskOf(s, t).Flushed?
    ensures Inv(Next(s, Install(t), true))
  {
    var u := Next(s, Install(t), true);
    assert TaskOk(s, s.tasks[t]) && s.lock == Some(t);
    forall x | x in u.tasks ensures TaskOk(u, u.tasks[x]) { if x != t { assert !Locking(s.tasks[x]); } }
    assert Next0(Row(u)) == Counter(u.range.end, 0);
    assert Level(u, Row(u));
  }

  lemma CommitKeeps(s: State, t: nat)
    requires Inv(s) && TaskOf(s, t).Loaded?
    ensures Inv(Next(s, CommitRow(t), true))
  {
    var u := Next(s, CommitRow(t), true);
    assert TaskOk(s, s.tasks[t]) && s.lock == Some(t);
    RowAppended(s, Row(u), u);
    forall x | x in u.tasks ensures TaskOk(u, u.tasks[x]) { if x != t { assert !Locking(s.tasks[x]); } }
  }

  lemma BackgroundKeeps(s: State, k: nat)
    requires Inv(s) && s.durable <= k < |s.history|
    ensures Inv(s.(durable := k))
  {
    var u := s.(durable := k);
    forall x | x in u.tasks ensures TaskOk(u, u.tasks[x]) { assert TaskOk(s, s.tasks[x]); }
    forall i | u.durable <= i < |u.history| ensures Level(u, u.history[i]) { assert Level(s, s.history[i]); }
  }

  /** Every fallback has a counter that is past the numbers given so far. */
  lemma FallbackAhead(s: State, k: nat)
    requires Inv(s) && s.durable <= k < |s.history|
    ensures s.range.next <= s.range.end <= Next0(s.history[k])
  {
    assert Level(s, s.history[k]);
  }

  lemma CrashKeeps(s: State, k: nat)
    requires Inv(s) && s.durable <= k < |s.history|
    ensures Inv(Next(s, Crash(k), true))
  {
    FallbackAhead(s, k);
    var u := Next(s, Crash(k), true);
    assert Next0(Row(u)) == Counter(u.range.end, 0);
    assert Level(u, Row(u));
  }

  lemma Step(s: State, a: Action)
    requires Enabled(s, a, true) && Inv(s)
    ensures Inv(Next(s, a, true))
  {
    hide RowsOk, RangeOk, GivenOk;
    match a
    case Fast(t) => GiveKeeps(s, t, Next(s, a, true));
    case Slow(t) => MoveKeeps(s, t, Waiting, s.lock);
    case Lock(t) => MoveKeeps(s, t, Holding, Some(t));
    case Recheck(t) =>
      assert s.lock == Some(t);
      GiveKeeps(s, t, Next(s, a, true));
    case ReadRow(t) =>
      RangeShape(s);
      MoveKeeps(s, t, Read(Row(s)), s.lock);
    case PutRow(t) => PutKeeps(s, t);
    case FlushRow(t) => FlushKeeps(s, t);
    case Install(t) => InstallKeeps(s, t);
    case BeginCommit(t) => MoveKeeps(s, t, Committing, Some(t));
    case LoadRow(t) => MoveKeeps(s, t, Loaded(Row(s)), s.lock);
    case CommitRow(t) => CommitKeeps(s, t);
    case Fail(t) => MoveKeeps(s, t, Idle, if s.lock == Some(t) then None else s.lock);
    case Background(k) => BackgroundKeeps(s, k);
    case Crash(k) => CrashKeeps(s, k);
  }

  lemma RangeShape(s: State)
    requires Inv(s)
    ensures s.range.next <= s.range.end
  {}

  lemma {:induction false} RunKeeps(s: State, acts: seq<Action>, t: State)
    requires Runs(s, acts, t, true) && Inv(s)
    ensures Inv(t)
    decreases |acts|
  {
    hide Inv, Enabled, Next;
    if acts != [] {
      Step(s, acts[0]);
      RunKeeps(Next(s, acts[0], true), acts[1..], t);
    }
  }

  // ---------------------------------------------------------------- what runs guarantee

  predicate Unique(given: seq<nat>) { forall i, j | 0 <= i < j < |given| :: given[i] != given[j] }

  ghost predicate SafeUnder(locked: bool) { forall acts, s | Runs(Initial(), acts, s, locked) :: Unique(s.given) }

  /**
    Numbers are unique, start at 1024 and lie below the durable counter, in every interleaving with
    crashes anywhere.
   */
  lemma AllocatesOnce(acts: seq<Action>, s: State)
    requires Runs(Initial(), acts, s, true)
    ensures Shaped(s) && Unique(s.given)
    ensures forall i, k | 0 <= i < |s.given| && s.durable <= k < |s.history| ::
        MIN_BLOCK_SEQ <= s.given[i] < Next0(s.history[k])
  {
    RunKeeps(Initial(), acts, s);
    forall i, k | 0 <= i < |s.given| && s.durable <= k < |s.history|
      ensures MIN_BLOCK_SEQ <= s.given[i] < Next0(s.history[k])
    {
      FallbackAhead(s, k);
    }
  }

  /** The numbers a crash to `k` skips: those between the next one due and the first one of the next process. */
  function Skipped(s: State, k: nat): int
    requires k < |s.history|
  {
    RefillBase(s.history[k].nextBlockseq) - RefillBase(Some(s.range.next))
  }

  function Fails(acts: seq<Action>): nat {
    if acts == [] then 0 else (if acts[0].Fail? then 1 else 0) + Fails(acts[1..])
  }

  /** Refills under way. */
  predicate Refilling(s: State) { exists t :: t in s.tasks && (s.tasks[t].Put? || s.tasks[t].Flushed?) }

  predicate OpenOk(s: State, fails: nat) { s.open <= fails + if Refilling(s) then 1 else 0 }

  lemma OpenStep(s: State, a: Action, fails: nat)
    requires Enabled(s, a, true) && Inv(s) && OpenOk(s, fails)
    ensures OpenOk(Next(s, a, true), fails + if a.Fail? then 1 else 0)
  {
    hide RowsOk, RangeOk, GivenOk;
    var u := Next(s, a, true);
    if a.PutRow? {
      assert u.tasks[a.t].Put?;
      forall t | t in s.tasks ensures !s.tasks[t].Put? && !s.tasks[t].Flushed? {}
    } else if Refilling(s) && !a.Install? && !a.Crash? {
      var t :| t in s.tasks && (s.tasks[t].Put? || s.tasks[t].Flushed?);
      assert (a.Fail? && a.t == t) || (t in u.tasks && (u.tasks[t].Put? || u.tasks[t].Flushed?));
    }
  }

  lemma {:induction false} OpenBound(s: State, acts: seq<Action>, t: State, fails: nat)
    requires Runs(s, acts, t, true) && Inv(s) && OpenOk(s, fails)
    ensures OpenOk(t, fails + Fails(acts))
    decreases |acts|
  {
    hide Inv, OpenOk;
    if acts != [] {
      Step(s, acts[0]);
      OpenStep(s, acts[0], fails);
      OpenBound(Next(s, acts[0], true), acts[1..], t, fails + if acts[0].Fail? then 1 else 0);
    }
  }

  /**
    A crash skips fewer than 256 numbers, unless a reservation was written and not put to use: then it
    skips 256 for each of those that survive.  They are at most one, and one more for each failure.
   */
  lemma CrashWaste(acts: seq<Action>, s: State, k: nat)
    requires Runs(Initial(), acts, s, true) && s.durable <= k < |s.history|
    ensures 0 <= Skipped(s, k) && s.open <= 1 + Fails(acts)
    ensures Next0(s.history[k]) == s.range.end ==> Skipped(s, k) < RESERVATION_N
    ensures Next0(s.history[k]) != s.range.end ==>
              exists i: nat :: 1 <= i <= s.open && Skipped(s, k) == RESERVATION_N * i
    ensures s.open > 0 ==> (Skipped(s, k) == RESERVATION_N * s.open <==> Next0(s.history[k]) == Next0(Row(s)))
  {
    RunKeeps(Initial(), acts, s);
    OpenBound(Initial(), acts, s, 0);
    FallbackAhead(s, k);
    assert Level(s, s.history[k]);
    var i: nat :| i <= s.open && Next0(s.history[k]) == Counter(s.range.end, i);
    if i > 0 { assert Skipped(s, k) == RESERVATION_N * i; }
  }

  // ---------------------------------------------------------------- why commits take the lock

  ghost predicate Reaches(s: State, t: State) { exists acts :: Runs(s, acts, t, false) }

  lemma {:induction false} RunsThen(s: State, acts: seq<Action>, t: State, a: Action)
    requires Runs(s, acts, t, false) && Enabled(t, a, false)
    ensures Runs(s, acts + [a], Next(t, a, false), false)
    decreases |acts|
  {
    hide Enabled, Next;
    if acts == [] {
      assert [a][1..] == [];
      assert Runs(Next(s, a, false), [], Next(s, a, false), false);
    } else {
      assert (acts + [a])[0] == acts[0] && (acts + [a])[1..] == acts[1..] + [a];
      RunsThen(Next(s, acts[0], false), acts[1..], t, a);
    }
  }

  lemma Then(s: State, t: State, a: Action)
    requires Reaches(s, t) && Enabled(t, a, false)
    ensures Reaches(s, Next(t, a, false))
  {
    hide Enabled, Next;
    var acts :| Runs(s, acts, t, false);
    RunsThen(s, acts, t, a);
  }

  /** A whole refill by task 1. */
  lemma Refill(s: State) returns (u: State)
    requires Reaches(Initial(), s) && Shaped(s) && TaskOf(s, 1).Idle? && s.lock.None? && s.range.next >= s.range.end
    ensures Reaches(Initial(), u) && Shaped(u) && u.lock.None? && u.tasks == s.tasks[1 := Idle]
    ensures u.given == s.given + [RefillBase(Row(s).nextBlockseq)]
  {
    hide Reaches;
    Then(Initial(), s, Slow(1));
    u := Next(s, Slow(1), false);
    Then(Initial(), u, Lock(1));
    u := Next(u, Lock(1), false);
    Then(Initial(), u, ReadRow(1));
    u := Next(u, ReadRow(1), false);
    Then(Initial(), u, PutRow(1));
    u := Next(u, PutRow(1), false);
    Then(Initial(), u, FlushRow(1));
    u := Next(u, FlushRow(1), false);
    Then(Initial(), u, Install(1));
    u := Next(u, Install(1), false);
  }

  /** A commit that read the row before a refill writes the old counter back. */
  lemma UnlockedCommitBreaks()
    ensures !SafeUnder(false)
  {
    hide Reaches;
    var i := Initial();
    assert Reaches(i, i) by { StandStill(i); }
    Then(i, i, BeginCommit(2));
    var s := Next(i, BeginCommit(2), false);
    Then(i, s, LoadRow(2));
    s := Next(s, LoadRow(2), false);
    var u := Refill(s);
    assert u.tasks[2] == Loaded(Meta(0, None));
    Then(i, u, CommitRow(2));
    u := Next(u, CommitRow(2), false);
    var k := |u.history| - 1;
    Then(i, u, Crash(k));
    u := Next(u, Crash(k), false);
    var v := Refill(u);
    assert v.given[0] == v.given[1];
    Refute(v);
  }

  lemma StandStill(s: State)
    ensures Reaches(s, s)
  {
    assert Runs(s, [], s, false);
  }

  lemma Refute(s: State)
    requires Reaches(Initial(), s) && !Unique(s.given)
    ensures !SafeUnder(false)
  {
    hide Unique, Runs;
    var acts :| Runs(Initial(), acts, s, false);
  }

  /** Numbers are unique over all runs exactly because commits take the allocator's lock. */
  lemma UniqueExactly(locked: bool)
    ensures SafeUnder(locked) <==> locked
  {
    hide Runs, Unique;
    if locked {
      forall acts, s | Runs(Initial(), acts, s, true) ensures Unique(s.given) { AllocatesOnce(acts, s); }
    } else {
      UnlockedCommitBreaks();
    }
  }
}
