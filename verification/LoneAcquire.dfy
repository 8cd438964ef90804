/**
  What an acquire, or a release, comes to when no other holder takes a step meanwhile: which status it
  returns and which files it leaves, whatever it finds in the directory and however long it takes.
 */
module LoneAcquire {
  import opened Prelude
  import opened EpochLock

  // ---------------------------------------------------------------- what it should come to

  /** Files of others that still run at `ts`. */
  function Rivals(files: Directory, h: Holder, ts: int): set<Epoch> {
    set x | x in files && files[x].holder != h && ts < files[x].lastModified + files[x].duration
  }

  /** The store's clock has gone back since one of them was written. */
  predicate Backward(files: Directory, h: Holder, ts: int) {
    exists x :: x in Rivals(files, h, ts) && files[x].lastModified > ts
  }

  /** The status of an acquire whose claim reaches the store at `ts`. */
  function Verdict(files: Directory, h: Holder, p: Proc, ts: int): Status {
    if NextEpoch(files) > MAX_EPOCH then StoreError
    else if Rivals(files, h, ts) == {} then Owner(NextEpoch(files))
    else if Backward(files, h, ts) then QueuedBackwardClock
    else if files[Least(Rivals(files, h, ts))].priority < p.priority then Queued
    else Failed
  }

  function OwnFile(h: Holder, p: Proc, ts: int): EpochFile { EpochFile(h, p.priority, p.duration, ts) }

  /** The rivals' files, and the new one. */
  function Claimants(files: Directory, h: Holder, p: Proc, ts: int): Directory {
    (map x | x in Rivals(files, h, ts) :: files[x])[NextEpoch(files) := OwnFile(h, p, ts)]
  }

  /** What is left of the directory. */
  function Left(files: Directory, h: Holder, p: Proc, ts: int): Directory {
    match Verdict(files, h, p, ts)
    case StoreError => files
    case Failed => map x | x in Rivals(files, h, ts) :: files[x]
    case _ => Claimants(files, h, p, ts)
  }

  // ---------------------------------------------------------------- runs of one holder

  /** Time passes, or `h` goes on with its acquire and the store does as it is told. */
  predicate GoesOn(h: Holder, a: Action) {
    a.Tick? || (a.h == h && (a.step.List? || a.step.Put? || a.step.Head? || a.step.BeginScavenge?
                             || a.step.ScavengeRead? || a.step == ScavengeDelete(true) || a.step.VerifyList?
                             || a.step.CheckRead? || a.step.CheckDone? || a.step.YieldRead? || a.step.Own?
                             || a.step == Withdraw(true) || a.step.Return?))
  }

  ghost predicate Alone(s: State, h: Holder, acts: seq<Action>, t: State) {
    h in s.procs && Runs(s, acts, t, CODE) && forall i | 0 <= i < |acts| :: GoesOn(h, acts[i])
  }

  lemma AloneSplit(s: State, h: Holder, acts: seq<Action>, t: State)
    requires Alone(s, h, acts, t) && acts != []
    ensures Enabled(s, acts[0], CODE) && GoesOn(h, acts[0]) && Alone(Next(s, acts[0]), h, acts[1..], t)
  {
    forall i | 0 <= i < |acts[1..]| ensures GoesOn(h, acts[1..][i]) { assert acts[1..][i] == acts[i + 1]; }
  }

  lemma AloneJoin(s: State, h: Holder, a: Action, acts: seq<Action>, t: State)
    requires h in s.procs && Enabled(s, a, CODE) && GoesOn(h, a) && Alone(Next(s, a), h, acts, t)
    ensures Alone(s, h, [a] + acts, t)
  {
    hide Enabled, Next;
    assert ([a] + acts)[1..] == acts;
    forall i | 0 <= i < |[a] + acts| ensures GoesOn(h, ([a] + acts)[i]) {
      if i > 0 { assert ([a] + acts)[i] == acts[i - 1]; }
    }
  }

  // ---------------------------------------------------------------- on the way

  /** Where scavenging stands: what is neither still to be read nor about to be deleted is settled. */
  ghost predicate Scavenged(files: Directory, h: Holder, p: Proc, ts: int, now: Directory, ph: Phase)
    requires ph.Scavenging?
  {
    var n := NextEpoch(files);
    && ph.todo.Keys <= files.Keys && (forall x | x in ph.todo :: ph.todo[x] == files[x].lastModified)
    && (ph.doomed.Some? ==>
          var d := ph.doomed.value;
          d.epoch in files && d.epoch !in ph.todo && d.epoch !in Rivals(files, h, ts) && d.file == files[d.epoch])
    && n in now && now[n] == OwnFile(h, p, ts)
    && (forall x | x != n ::
          x in now <==> x in ph.todo || x in Rivals(files, h, ts) || (ph.doomed.Some? && x == ph.doomed.value.epoch))
    && (forall x | x in now && x != n :: x in files && now[x] == files[x])
    && (ph.regression <==>
        exists x :: x in Rivals(files, h, ts) && x !in ph.todo && files[x].lastModified > ts)
  }

  /** Where an acquire that found `files` and has claimed at `ts`, or not yet, stands. */
  ghost predicate Midway(files: Directory, h: Holder, p: Proc, ts: int, now: Directory, q: Proc) {
    var n := NextEpoch(files);
    var c, all := Claim(n, ts, p.duration), Claimants(files, h, p, ts);
    && q.priority == p.priority && q.duration == p.duration
    && (HasClaim(q.phase) ==> q.phase.c == c && n <= MAX_EPOCH)
    && match q.phase
       case Claiming => now == files
       case Putting(next) => now == files && next == n && n <= MAX_EPOCH
       case Heading(_) => now == files[n := OwnFile(h, p, ts)]
       case Claimed(_) => now == files[n := OwnFile(h, p, ts)]
       case Scavenging(_, _, _, _) => Scavenged(files, h, p, ts, now, q.phase)
       case Checking(_, lower, higher, regression) =>
         && now == all && lower == Rivals(files, h, ts) && higher == map[]
         && (regression <==> Backward(files, h, ts))
       case Yielding(_, higher) => now == all && Rivals(files, h, ts) == {} && higher == map[]
       case Withdrawing(_, outcome) => now == all && outcome == Failed == Verdict(files, h, p, ts)
       case Returning(outcome) =>
         && n <= MAX_EPOCH && !outcome.Owner? && outcome == Verdict(files, h, p, ts) && now == Left(files, h, p, ts)
       case Idle =>
         && q.status == Some(Verdict(files, h, p, ts)) && now == Left(files, h, p, ts)
         && (q.status.value.Owner? ==> q.held == Some(c) && q.guard == Some(c))
         && (!q.status.value.Owner? && !q.status.value.StoreError? ==> q.guard == None)
       case Releasing(_, _) => false
  }

  lemma NextIsNew(files: Directory)
    ensures NextEpoch(files) !in files && forall x | x in files :: x < NextEpoch(files)
  {}

  lemma ClaimStepOn(files: Directory, h: Holder, p: Proc, ts: int, clock: int, now: Directory, q: Proc, step: Step)
    returns (ts': int)
    requires Midway(files, h, p, ts, now, q) && PhaseAllows(now, h, q, step) && ts <= clock
    requires step.List? || step.Put? || step.Head? || step.BeginScavenge?
    ensures var r := Act(clock, now, h, q, step); Midway(files, h, p, ts', r.0, r.1)
    ensures ts' == ts || ts' == clock
  {
    NextIsNew(files);
    ts' := if step.Put? then clock else ts;
  }

  lemma ScavengeReadOn(files: Directory, h: Holder, p: Proc, ts: int, clock: int, now: Directory, q: Proc)
    requires Midway(files, h, p, ts, now, q) && PhaseAllows(now, h, q, ScavengeRead)
    ensures var r := Act(clock, now, h, q, ScavengeRead); Midway(files, h, p, ts, r.0, r.1)
  {
    NextIsNew(files);
    var x := Least(q.phase.todo.Keys);
    assert x in q.phase.todo && x in now && now[x] == files[x];
  }

  lemma ScavengeDeleteOn(files: Directory, h: Holder, p: Proc, ts: int, clock: int, now: Directory, q: Proc)
    requires Midway(files, h, p, ts, now, q) && PhaseAllows(now, h, q, ScavengeDelete(true))
    ensures var r := Act(clock, now, h, q, ScavengeDelete(true)); Midway(files, h, p, ts, r.0, r.1)
  {
    NextIsNew(files);
  }

  lemma VerifyListOn(files: Directory, h: Holder, p: Proc, ts: int, clock: int, now: Directory, q: Proc)
    requires Midway(files, h, p, ts, now, q) && PhaseAllows(now, h, q, VerifyList)
    ensures var r := Act(clock, now, h, q, VerifyList); Midway(files, h, p, ts, r.0, r.1)
  {
    NextIsNew(files);
    assert q.phase.todo == map[];
    assert now == Claimants(files, h, p, ts);
    assert Below(now, NextEpoch(files)).Keys == Rivals(files, h, ts);
    assert Above(now, NextEpoch(files)) == map[];
  }

  lemma CheckReadOn(files: Directory, h: Holder, p: Proc, ts: int, clock: int, now: Directory, q: Proc)
    requires Midway(files, h, p, ts, now, q) && PhaseAllows(now, h, q, CheckRead)
    ensures var r := Act(clock, now, h, q, CheckRead); Midway(files, h, p, ts, r.0, r.1)
  {
    NextIsNew(files);
    var x := Least(q.phase.lower);
    assert x in now && now[x] == files[x];
  }

  lemma WithdrawOn(files: Directory, h: Holder, p: Proc, ts: int, clock: int, now: Directory, q: Proc)
    requires Midway(files, h, p, ts, now, q) && PhaseAllows(now, h, q, Withdraw(true))
    ensures var r := Act(clock, now, h, q, Withdraw(true)); Midway(files, h, p, ts, r.0, r.1)
  {
    NextIsNew(files);
    assert now - {NextEpoch(files)} == (map x | x in Rivals(files, h, ts) :: files[x]);
  }

  lemma LastStepsOn(files: Directory, h: Holder, p: Proc, ts: int, clock: int, now: Directory, q: Proc, step: Step)
    requires Midway(files, h, p, ts, now, q) && PhaseAllows(now, h, q, step)
    requires step.CheckDone? || step.Own? || step.Return?
    ensures var r := Act(clock, now, h, q, step); Midway(files, h, p, ts, r.0, r.1)
  {
    hide Claimants, Scavenged, NextEpoch;
  }

  /** One step on. */
  lemma StepOn(files: Directory, h: Holder, p: Proc, ts: int, s: State, a: Action) returns (ts': int)
    requires h in s.procs && Midway(files, h, p, ts, s.files, s.procs[h]) && Enabled(s, a, CODE) && GoesOn(h, a)
    requires ts <= s.clock
    ensures h in Next(s, a).procs && Midway(files, h, p, ts', Next(s, a).files, Next(s, a).procs[h])
    ensures ts' == ts || ts' == s.clock
  {
    hide Midway, PhaseAllows, Act;
    ts' := ts;
    if a.By? {
      var q := s.procs[h];
      if a.step.List? || a.step.Put? || a.step.Head? || a.step.BeginScavenge? {
        ts' := ClaimStepOn(files, h, p, ts, s.clock, s.files, q, a.step);
      } else if a.step.ScavengeRead? {
        ScavengeReadOn(files, h, p, ts, s.clock, s.files, q);
      } else if a.step.ScavengeDelete? {
        ScavengeDeleteOn(files, h, p, ts, s.clock, s.files, q);
      } else if a.step.VerifyList? {
        VerifyListOn(files, h, p, ts, s.clock, s.files, q);
      } else if a.step.CheckRead? {
        CheckReadOn(files, h, p, ts, s.clock, s.files, q);
      } else if a.step.Withdraw? {
        WithdrawOn(files, h, p, ts, s.clock, s.files, q);
      } else if a.step.YieldRead? {
        NobodyAbove(files, h, p, ts, s.files, q);
      } else {
        LastStepsOn(files, h, p, ts, s.clock, s.files, q, a.step);
      }
    }
  }

  lemma NobodyAbove(files: Directory, h: Holder, p: Proc, ts: int, now: Directory, q: Proc)
    requires Midway(files, h, p, ts, now, q)
    ensures !PhaseAllows(now, h, q, YieldRead)
  {}

  lemma {:induction false} GoesThrough(files: Directory, h: Holder, p: Proc, ts: int, s: State, acts: seq<Action>,
                                       t: State)
    returns (ts': int)
    requires Alone(s, h, acts, t) && Midway(files, h, p, ts, s.files, s.procs[h]) && ts <= s.clock
    ensures h in t.procs && Midway(files, h, p, ts', t.files, t.procs[h])
    ensures (ts' == ts || s.clock <= ts') && ts' <= t.clock
    decreases |acts|
  {
    hide Midway, Enabled, Next, GoesOn;
    if acts == [] {
      ts' := ts;
    } else {
      AloneSplit(s, h, acts, t);
      ts' := StepOn(files, h, p, ts, s, acts[0]);
      TimeGoesOn(s, acts[0]);
      ts' := GoesThrough(files, h, p, ts', Next(s, acts[0]), acts[1..], t);
    }
  }

  lemma TimeGoesOn(s: State, a: Action)
    requires Enabled(s, a, CODE)
    ensures s.clock <= Next(s, a).clock
  {}

  // ---------------------------------------------------------------- it can always end

  function Rank(ph: Phase): nat {
    match ph
    case Idle => 0
    case Returning(_) => 1
    case Withdrawing(_, _) => 2
    case Yielding(_, _) => 3
    case Checking(_, _, _, _) => 4
    case Scavenging(_, _, _, _) => 5
    case Claimed(_) => 6
    case Heading(_) => 7
    case Putting(_) => 8
    case Claiming => 9
    case Releasing(_, _) => 10
  }

  function Todo(ph: Phase): set<Epoch> { if ph.Scavenging? then ph.todo.Keys else {} }

  /** The step after which the acquire is closer to its end. */
  function Onward(ph: Phase): Step
    requires !ph.Idle? && !ph.Releasing?
  {
    match ph
    case Claiming => List
    case Putting(_) => Put
    case Heading(_) => Head
    case Claimed(_) => BeginScavenge
    case Scavenging(_, todo, doomed, _) =>
      if doomed.Some? then ScavengeDelete(true) else if todo.Keys != {} then ScavengeRead else VerifyList
    case Checking(_, lower, _, _) => if lower != {} then CheckRead else CheckDone
    case Yielding(_, _) => Own
    case Withdrawing(_, _) => Withdraw(true)
    case Returning(_) => Return
  }

  lemma OnwardAllowed(files: Directory, h: Holder, p: Proc, ts: int, now: Directory, q: Proc)
    requires Midway(files, h, p, ts, now, q) && !q.phase.Idle?
    ensures PhaseAllows(now, h, q, Onward(q.phase))
  {}

  function Pending(ph: Phase): nat { if ph.Scavenging? && ph.doomed.Some? then 1 else 0 }

  /** The phase is a later one, less is left to be read, or a delete is done. */
  predicate Closer(ph: Phase, before: Phase) {
    || Rank(ph) < Rank(before)
    || (Rank(ph) == Rank(before) && Todo(ph) < Todo(before))
    || (Rank(ph) == Rank(before) && Todo(ph) == Todo(before) && Pending(ph) < Pending(before))
  }

  lemma OnwardCloser(files: Directory, h: Holder, p: Proc, ts: int, clock: int, now: Directory, q: Proc)
    requires Midway(files, h, p, ts, now, q) && !q.phase.Idle? && PhaseAllows(now, h, q, Onward(q.phase))
    ensures Closer(Act(clock, now, h, q, Onward(q.phase)).1.phase, q.phase)
  {
    NextIsNew(files);
    hide Scavenged;
  }

  lemma {:induction false} CanEnd(files: Directory, h: Holder, p: Proc, ts: int, s: State)
    returns (acts: seq<Action>, t: State)
    requires h in s.procs && Midway(files, h, p, ts, s.files, s.procs[h]) && ts <= s.clock
    ensures Alone(s, h, acts, t) && h in t.procs && t.procs[h].phase.Idle?
    decreases Rank(s.procs[h].phase), Todo(s.procs[h].phase), Pending(s.procs[h].phase)
  {
    var q := s.procs[h];
    if q.phase.Idle? {
      acts, t := [], s;
    } else {
      OnwardAllowed(files, h, p, ts, s.files, q);
      OnwardCloser(files, h, p, ts, s.clock, s.files, q);
      hide Midway, PhaseAllows, Act, Runs, Rank, Todo, Pending;
      var a := By(h, Onward(q.phase));
      var ts' := StepOn(files, h, p, ts, s, a);
      acts, t := CanEnd(files, h, p, ts', Next(s, a));
      AloneJoin(s, h, a, acts, t);
      acts := [a] + acts;
    }
  }

  // ---------------------------------------------------------------- whole acquires

  /** From idle to idle, past the fast path. */
  ghost predicate Acquires(s: State, h: Holder, t: State) {
    && h in s.procs && s.procs[h].phase.Idle? && h in t.procs && t.procs[h].phase.Idle?
    && exists acts :: Alone(Next(s, By(h, Start)), h, acts, t)
  }

  lemma {:induction false} OthersSame(s: State, h: Holder, acts: seq<Action>, t: State)
    requires Alone(s, h, acts, t)
    ensures t.procs.Keys == s.procs.Keys && s.clock <= t.clock
    ensures forall g | g in s.procs && g != h :: t.procs[g] == s.procs[g]
    decreases |acts|
  {
    if acts != [] {
      AloneSplit(s, h, acts, t);
      OthersSame(Next(s, acts[0]), h, acts[1..], t);
    }
  }

  /** An acquire that nobody disturbs can end, and every way it ends follows the rules. */
  lemma AcquireEnds(s: State, h: Holder)
    requires h in s.procs && s.procs[h].phase.Idle?
    ensures exists t :: Acquires(s, h, t)
    ensures forall t | Acquires(s, h, t) :: exists ts :: Concludes(s, h, t, ts)
  {
    hide Alone, Verdict, Left, Midway;
    var s1 := Next(s, By(h, Start));
    assert Midway(s1.files, h, s1.procs[h], s1.clock, s1.files, s1.procs[h]) by { BeginsMidway(s1, h); }
    var acts, t := CanEnd(s1.files, h, s1.procs[h], s1.clock, s1);
    assert Acquires(s, h, t);
    forall u | Acquires(s, h, u) ensures exists ts :: Concludes(s, h, u, ts) { var ts := Conclusion(s, h, u); }
  }

  lemma BeginsMidway(s: State, h: Holder)
    requires h in s.procs && s.procs[h].phase.Claiming?
    ensures Midway(s.files, h, s.procs[h], s.clock, s.files, s.procs[h])
  {}

  /** The outcome of an acquire whose claim reached the store at `ts`. */
  predicate Concludes(s: State, h: Holder, t: State, ts: int)
    requires h in s.procs && h in t.procs
  {
    var p := s.procs[h];
    && s.clock <= ts <= t.clock
    && t.procs[h].status == Some(Verdict(s.files, h, p, ts)) && t.files == Left(s.files, h, p, ts)
    && t.procs[h].priority == p.priority && t.procs[h].duration == p.duration
  }

  lemma Conclusion(s: State, h: Holder, t: State) returns (ts: int)
    requires Acquires(s, h, t)
    ensures Concludes(s, h, t, ts)
    ensures t.procs.Keys == s.procs.Keys && forall g | g in s.procs && g != h :: t.procs[g] == s.procs[g]
    ensures t.procs[h].status.value.Owner? ==>
              t.procs[h].held == t.procs[h].guard == Some(Claim(NextEpoch(s.files), ts, s.procs[h].duration))
    ensures t.procs[h].status.value.Failed? ==> t.procs[h].guard == None
  {
    hide Alone, Verdict, Left;
    var s1 := Next(s, By(h, Start));
    var acts :| Alone(s1, h, acts, t);
    BeginsMidway(s1, h);
    ts := GoesThrough(s.files, h, s1.procs[h], s.clock, s1, acts, t);
    OthersSame(s1, h, acts, t);
    SameRules(s.files, h, s.procs[h], s1.procs[h], ts);
  }

  lemma SameRules(files: Directory, h: Holder, p: Proc, q: Proc, ts: int)
    requires p.priority == q.priority && p.duration == q.duration
    ensures Verdict(files, h, p, ts) == Verdict(files, h, q, ts) && Left(files, h, p, ts) == Left(files, h, q, ts)
  {}

  // ---------------------------------------------------------------- priority

  /** No file is from the future, and epochs are not used up. */
  predicate Sane(s: State) {
    NextEpoch(s.files) <= MAX_EPOCH && forall x | x in s.files :: s.files[x].lastModified <= s.clock
  }

  /** The lowest of the others' files, still running when the acquire has ended. */
  predicate InFront(s: State, h: Holder, t: State, x: Epoch) {
    && x in s.files && s.files[x].holder != h && !s.files[x].ExpiredAt(t.clock)
    && forall y | y in s.files && y < x :: s.files[y].holder == h
  }

  lemma LeastRival(s: State, h: Holder, t: State, x: Epoch, ts: int)
    requires InFront(s, h, t, x) && ts <= t.clock
    ensures x in Rivals(s.files, h, ts) && Least(Rivals(s.files, h, ts)) == x
  {
    assert x in Rivals(s.files, h, ts);
  }

  /**
    Behind a running file of lower priority an acquire is queued and its file stays; behind one of equal or
    higher priority it fails and leaves no file.
   */
  lemma QueuedOrFailed(s: State, h: Holder, t: State, x: Epoch)
    requires Acquires(s, h, t) && Sane(s) && InFront(s, h, t, x)
    ensures x in t.files && t.files[x] == s.files[x]
    ensures s.files[x].priority < s.procs[h].priority ==>
              && t.procs[h].status == Some(Queued) && NextEpoch(s.files) in t.files
              && var f := t.files[NextEpoch(s.files)];
                 f.holder == h && f.priority == s.procs[h].priority && f.duration == s.procs[h].duration
                 && s.clock <= f.lastModified <= t.clock
    ensures s.files[x].priority >= s.procs[h].priority ==>
              t.procs[h].status == Some(Failed) && forall y | y in t.files :: t.files[y].holder != h
  {
    var ts := Conclusion(s, h, t);
    LeastRival(s, h, t, x, ts);
    NextIsNew(s.files);
  }

  /** Without a running file of anybody else it owns, and its file is the only one. */
  lemma OwnsAlone(s: State, h: Holder, t: State)
    requires Acquires(s, h, t) && Sane(s)
    requires forall x | x in s.files :: s.files[x].holder == h || s.files[x].ExpiredAt(s.clock)
    ensures t.procs[h].status == Some(Owner(NextEpoch(s.files))) && t.files.Keys == {NextEpoch(s.files)}
    ensures t.procs[h].held.Some? && t.procs[h].held.value.epoch == NextEpoch(s.files)
  {
    var ts := Conclusion(s, h, t);
    assert Rivals(s.files, h, ts) == {};
  }

  /** The running files are those of `g`, of lower priority than `h`, and there is one. */
  ghost predicate OwnedBelow(s: State, g: Holder, h: Holder, t: State) {
    && g in s.procs && h in s.procs && g != h && s.procs[g].priority < s.procs[h].priority
    && (forall x | x in s.files && s.files[x].holder != h ::
          s.files[x].holder == g && s.files[x].priority == s.procs[g].priority)
    && exists x :: InFront(s, h, t, x)
  }

  /**
    Preemption: a contender of higher priority is queued, the owner's next acquire fails and its user is
    told, and the contender's next acquire owns, if the queued file still runs when the owner has tried.
   */
  lemma Preempts(s: State, g: Holder, h: Holder, t: State, u: State, v: State)
    requires Acquires(s, h, t) && Sane(s) && OwnedBelow(s, g, h, t) && NextEpoch(s.files) + 2 <= MAX_EPOCH
    requires Acquires(t, g, u) && u.clock < s.clock + s.procs[h].duration && Acquires(u, h, v)
    ensures t.procs[h].status == Some(Queued)
    ensures u.procs[g].status == Some(Failed) && u.procs[g].guard == None
    ensures h in v.procs && v.procs[h].status == Some(Owner(NextEpoch(u.files))) && v.files.Keys == {NextEpoch(u.files)}
  {
    var x :| InFront(s, h, t, x);
    QueuedOrFailed(s, h, t, x);
    var n := NextEpoch(s.files);
    var ts := Conclusion(s, h, t);
    OthersRun(s, g, h, t, ts);
    OneFailed(t, g, u, n);
    var ts' := Conclusion(t, g, u);
    assert u.files.Keys == {n};
    assert Sane(u);
    OwnsAlone(u, h, v);
  }

  /** Behind the queue there are only the queued file and the owner's. */
  lemma OthersRun(s: State, g: Holder, h: Holder, t: State, ts: int)
    requires h in s.procs && h in t.procs && Concludes(s, h, t, ts) && OwnedBelow(s, g, h, t)
    requires t.procs[h].status == Some(Queued)
    ensures t.files.Keys <= s.files.Keys + {NextEpoch(s.files)} && NextEpoch(t.files) == NextEpoch(s.files) + 1
    ensures forall x | x in t.files && x != NextEpoch(s.files) :: t.files[x].holder == g
  {
    NextIsNew(s.files);
    assert NextEpoch(s.files) in t.files.Keys;
  }

  lemma OneFailed(t: State, g: Holder, u: State, n: Epoch)
    requires Acquires(t, g, u) && Sane(t) && InFront(t, g, u, n) && t.files[n].priority >= t.procs[g].priority
    requires forall x | x in t.files && x != n :: t.files[x].holder == g
    ensures u.procs[g].status == Some(Failed) && u.procs[g].guard == None && u.files == map[n := t.files[n]]
  {
    QueuedOrFailed(t, g, u, n);
    var ts := Conclusion(t, g, u);
    LeastRival(t, g, u, n, ts);
    assert Rivals(t.files, g, ts) == {n};
  }

  /** The fast path is open exactly behind somebody else's file of no lower priority, and changes nothing. */
  lemma RejectedIff(s: State, h: Holder)
    requires h in s.procs && s.procs[h].phase.Idle?
    ensures Enabled(s, By(h, Reject), CODE) <==>
            exists x :: x in s.files && IsLowest(s.files, x) && s.files[x].holder != h
                        && s.files[x].priority >= s.procs[h].priority
    ensures Enabled(s, By(h, Reject), CODE) ==>
              var t := Next(s, By(h, Reject));
              && Enabled(t, By(h, Return), CODE)
              && var u := Next(t, By(h, Return));
                 u.files == s.files && u.procs[h].status == Some(NotOwner) && u.procs[h].guard == None
  {
    if s.files.Keys != {} {
      var least := Least(s.files.Keys);
      assert least in s.files && IsLowest(s.files, least);
      forall x | x in s.files && IsLowest(s.files, x) ensures x == least {}
    }
  }

  // ---------------------------------------------------------------- yielding

  /** Somebody of higher priority is in the list above the claim, and ran when the claim was made. */
  ghost predicate Outranked(files: Directory, p: Proc, c: Claim, higher: Times) {
    exists x :: x in higher && x in files && files[x].priority > p.priority && c.ts < higher[x] + files[x].duration
  }

  /** Where the end of an acquire whose claim `c` is the lowest stands. */
  ghost predicate Deciding(files: Directory, c: Claim, outranked: bool, now: Directory, q: Proc) {
    match q.phase
    case Yielding(d, higher) => d == c && now == files && (outranked <==> Outranked(files, q, c, higher))
    case Withdrawing(d, outcome) => d == c && now == files && outranked && outcome == Yielded
    case Returning(outcome) => outranked && outcome == Yielded && now == files - {c.epoch}
    case Idle =>
      if outranked then q.status == Some(Yielded) && q.guard == None && now == files - {c.epoch}
      else q.status == Some(Owner(c.epoch)) && q.held == q.guard == Some(c) && now == files
    case _ => false
  }

  lemma DecidingStep(files: Directory, h: Holder, c: Claim, outranked: bool, s: State, a: Action)
    requires h in s.procs && Deciding(files, c, outranked, s.files, s.procs[h]) && Enabled(s, a, CODE) && GoesOn(h, a)
    ensures h in Next(s, a).procs && Deciding(files, c, outranked, Next(s, a).files, Next(s, a).procs[h])
  {}

  lemma {:induction false} DecidingRun(files: Directory, h: Holder, c: Claim, outranked: bool, s: State,
                                       acts: seq<Action>, t: State)
    requires Alone(s, h, acts, t) && Deciding(files, c, outranked, s.files, s.procs[h])
    ensures h in t.procs && Deciding(files, c, outranked, t.files, t.procs[h])
    decreases |acts|
  {
    hide Deciding, Enabled, Next, GoesOn;
    if acts != [] {
      AloneSplit(s, h, acts, t);
      DecidingStep(files, h, c, outranked, s, acts[0]);
      DecidingRun(files, h, c, outranked, Next(s, acts[0]), acts[1..], t);
    }
  }

  /**
    An acquire whose claim is the lowest yields if and only if somebody of higher priority has come in above
    it and ran when the claim was made; it deletes its claim then, and owns otherwise.
   */
  lemma YieldsIff(s: State, h: Holder, acts: seq<Action>, t: State)
    requires Alone(s, h, acts, t) && s.procs[h].phase.Yielding? && h in t.procs && t.procs[h].phase.Idle?
    ensures var c := s.procs[h].phase.c;
            if Outranked(s.files, s.procs[h], c, s.procs[h].phase.higher)
            then t.procs[h].status == Some(Yielded) && t.procs[h].guard == None && t.files == s.files - {c.epoch}
            else t.procs[h].status == Some(Owner(c.epoch)) && t.procs[h].held == Some(c) && t.files == s.files
  {
    var c := s.procs[h].phase.c;
    var outranked := Outranked(s.files, s.procs[h], c, s.procs[h].phase.higher);
    DecidingRun(s.files, h, c, outranked, s, acts, t);
  }

  // ---------------------------------------------------------------- release

  predicate Releases(h: Holder, a: Action) {
    a.Tick? || (a.h == h && (a.step.ReleaseRead? || (a.step.ReleaseDelete? && a.step.gone) || a.step.EndRelease?))
  }

  ghost predicate ReleasesAlone(s: State, h: Holder, acts: seq<Action>, t: State) {
    h in s.procs && Runs(s, acts, t, CODE) && forall i | 0 <= i < |acts| :: Releases(h, acts[i])
  }

  ghost predicate Releasing(files: Directory, h: Holder, now: Directory, q: Proc) {
    && q.held == q.guard == None && (forall x | x in now :: x in files && now[x] == files[x])
    && (forall x | x in files && files[x].holder != h :: x in now)
    && match q.phase
       case Releasing(listed, read) =>
         && (forall x | x in now && now[x].holder == h :: x in listed || x in read)
         && forall x | x in read :: x in files && files[x].holder == h
       case Idle => forall x | x in now :: now[x].holder != h
       case _ => false
  }

  lemma ReleasingStep(files: Directory, h: Holder, s: State, a: Action)
    requires h in s.procs && Releasing(files, h, s.files, s.procs[h]) && Enabled(s, a, CODE) && Releases(h, a)
    ensures h in Next(s, a).procs && Releasing(files, h, Next(s, a).files, Next(s, a).procs[h])
  {}

  lemma {:induction false} ReleasingRun(files: Directory, h: Holder, s: State, acts: seq<Action>, t: State)
    requires ReleasesAlone(s, h, acts, t) && Releasing(files, h, s.files, s.procs[h])
    ensures h in t.procs && Releasing(files, h, t.files, t.procs[h])
    decreases |acts|
  {
    hide Releasing, Enabled, Next, Releases;
    if acts != [] {
      forall i | 0 <= i < |acts[1..]| ensures Releases(h, acts[1..][i]) { assert acts[1..][i] == acts[i + 1]; }
      ReleasingStep(files, h, s, acts[0]);
      ReleasingRun(files, h, Next(s, acts[0]), acts[1..], t);
    }
  }

  /** A release that nobody disturbs deletes exactly the holder's files. */
  lemma ReleaseDeletesOwn(s: State, h: Holder, acts: seq<Action>, t: State)
    requires h in s.procs && s.procs[h].phase.Idle? && ReleasesAlone(Next(s, By(h, BeginRelease)), h, acts, t)
    requires h in t.procs && t.procs[h].phase.Idle?
    ensures t.files == (map x | x in s.files && s.files[x].holder != h :: s.files[x])
    ensures t.procs[h].held == t.procs[h].guard == None
  {
    ReleasingRun(s.files, h, Next(s, By(h, BeginRelease)), acts, t);
  }
}
