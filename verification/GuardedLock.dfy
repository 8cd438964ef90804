/**
  Exclusion for the user of a lock guard, who goes on until told of a loss.

  A renewal is an acquire by the owner: it deletes the owner's previous file before the new claim is
  verified, and a claim that it withdraws before the user hears of it.  What the user relies on is
  therefore more than what `EpochLock.Holds` says.
 */
module GuardedLock {
  import opened Prelude
  import opened EpochLock

  /** The user has been granted the lock, has not been told of a loss, and the lease still runs. */
  ghost predicate Relies(s: State, h: Holder) {
    h in s.procs && s.procs[h].guard.Some? && Live(s.procs[h].guard.value, s.clock)
  }

  ghost predicate GuardExclusive(s: State) { forall g, h | Relies(s, g) && Relies(s, h) :: g == h }

  /** File `e` of `h` outlasts the guard `g`, and nobody else has an unexpired file below it. */
  predicate Covers(clock: int, files: Directory, h: Holder, g: Claim, e: Epoch) {
    && e in files && files[e].holder == h && g.ts + g.duration <= files[e].ExpiresAt()
    && NoRival(clock, files, h, e)
  }

  /** A covering file that the acquire under way has not gone past. */
  predicate Cover(clock: int, files: Directory, h: Holder, p: Proc, e: Epoch)
    requires p.guard.Some?
  {
    && Covers(clock, files, h, p.guard.value, e)
    && (p.phase.Heading? || p.phase.Claimed? ==> e < p.phase.c.epoch)
    && (HasClaim(p.phase) ==> e <= p.phase.c.epoch)
  }

  /** Nobody else has an unexpired file. */
  predicate Unrivalled(clock: int, files: Directory, h: Holder) {
    forall x | x in files :: files[x].holder == h || files[x].ExpiredAt(clock)
  }

  ghost predicate Covered(clock: int, files: Directory, h: Holder, p: Proc)
    requires p.guard.Some?
  {
    exists e :: Cover(clock, files, h, p, e)
  }

  ghost predicate GuardInv(clock: int, files: Directory, h: Holder, p: Proc) {
    && (HasClaim(p.phase) ==> p.phase.c.duration == p.duration && p.phase.c.ts <= clock)
    && (p.guard.Some? ==>
          && p.guard.value.duration == p.duration && p.guard.value.ts <= clock && !p.phase.Releasing?
          && (HasClaim(p.phase) ==> p.guard.value.ts <= p.phase.c.ts)
          && (Live(p.guard.value, clock) ==>
                Covered(clock, files, h, p) || Waits(clock, p)))
  }

  ghost predicate AllGuarded(s: State) { forall h | h in s.procs :: GuardInv(s.clock, s.files, h, s.procs[h]) }

  /** With its claim and what it knows, the acquire may own without looking at the directory again. */
  predicate Passed(clock: int, p: Proc) {
    && HasClaim(p.phase) && Live(p.phase.c, clock)
    && (p.phase.Yielding? || (p.phase.Checking? && p.phase.lower == {}))
  }

  predicate NonePassed(s: State, h: Holder) { forall g | g in s.procs && g != h :: !Passed(s.clock, s.procs[g]) }

  /** The user has not been told that its last file is gone. */
  ghost predicate Exposed(s: State, h: Holder) {
    h in s.procs && Waits(s.clock, s.procs[h]) && !Covered(s.clock, s.files, h, s.procs[h])
  }

  /** Nobody can own while a user is exposed: nobody has passed its check, or nobody has a file. */
  ghost predicate WaitInv(s: State, pre: Premises) {
    forall h | Exposed(s, h) :: if pre.unseen then NonePassed(s, h) else Unrivalled(s.clock, s.files, h)
  }

  // ---------------------------------------------------------------- steps

  lemma OtherKeeps(clock: int, files: Directory, files': Directory, h: Holder, g: Holder, p: Proc)
    requires SafeChange(clock, files, files', h) && g != h && GuardInv(clock, files, g, p)
    ensures GuardInv(clock, files', g, p)
    ensures p.guard.Some? && Live(p.guard.value, clock) && Covered(clock, files, g, p) ==>
              Covered(clock, files', g, p)
  {
    if p.guard.Some? && Live(p.guard.value, clock) && Covered(clock, files, g, p) {
      var e :| Cover(clock, files, g, p, e);
      assert Cover(clock, files', g, p, e);
    }
  }

  lemma TickCovers(s: State, d: nat, h: Holder, p: Proc)
    requires p.guard.Some? && Covered(s.clock, s.files, h, p)
    ensures Covered(s.clock + d, s.files, h, p)
  {
    var e :| Cover(s.clock, s.files, h, p, e);
    assert Cover(s.clock + d, s.files, h, p, e);
  }

  lemma TickKeeps(s: State, d: nat)
    requires AllGuarded(s)
    ensures AllGuarded(Next(s, Tick(d)))
  {
    var t := Next(s, Tick(d));
    forall h | h in t.procs ensures GuardInv(t.clock, t.files, h, t.procs[h]) {
      var p := s.procs[h];
      assert GuardInv(s.clock, s.files, h, p);
      if p.guard.Some? && Live(p.guard.value, t.clock) && Covered(s.clock, s.files, h, p) {
        TickCovers(s, d, h, p);
      }
    }
  }

  /** A step of the holder that leaves its cover alone. */
  lemma SameCover(clock: int, files: Directory, files': Directory, h: Holder, p: Proc, q: Proc, e: Epoch)
    requires p.guard.Some? && q.guard == p.guard && Cover(clock, files, h, p, e) && e in files'
    requires forall x | x in files' && x <= e :: x in files && files'[x] == files[x]
    requires q.phase.Heading? || q.phase.Claimed? ==> e < q.phase.c.epoch
    requires HasClaim(q.phase) ==> e <= q.phase.c.epoch
    ensures Cover(clock, files', h, q, e)
  {}

  /** Deleting the own previous file: the new claim takes over as cover. */
  lemma ScavengeKeeps(s: State, a: Action, pre: Premises)
    requires Inv(s) && AllGuarded(s) && Enabled(s, a, pre) && Suffices(pre) && pre.quiet && a.By?
    requires a.step.ScavengeDelete?
    ensures GuardInv(s.clock, Next(s, a).files, a.h, Next(s, a).procs[a.h])
  {
    var p, q, t := s.procs[a.h], Next(s, a).procs[a.h], Next(s, a);
    var d, c := p.phase.doomed.value, p.phase.c;
    assert GuardInv(s.clock, s.files, a.h, p) && ProcInv(s.clock, s.files, a.h, p);
    if q.guard.Some? && Live(q.guard.value, s.clock) {
      assert Live(c, s.clock) && FileIs(s.files, a.h, c) && d.epoch < c.epoch;
      var e :| Cover(s.clock, s.files, a.h, p, e);
      if e in t.files {
        SameCover(s.clock, s.files, t.files, a.h, p, q, e);
      } else {
        assert e == d.epoch && s.files[e] == d.file;
        assert Cover(s.clock, t.files, a.h, q, c.epoch);
      }
    }
  }

  lemma OwnKeeps(s: State, a: Action, pre: Premises)
    requires Inv(s) && AllGuarded(s) && Enabled(s, a, pre) && Suffices(pre) && a.By? && a.step.Own?
    ensures GuardInv(s.clock, Next(s, a).files, a.h, Next(s, a).procs[a.h])
    ensures var q := Next(s, a).procs[a.h];
            q.guard.Some? && (Live(q.guard.value, s.clock) ==> Covered(s.clock, Next(s, a).files, a.h, q))
  {
    var p, q := s.procs[a.h], Next(s, a).procs[a.h];
    assert GuardInv(s.clock, s.files, a.h, p) && ProcInv(s.clock, s.files, a.h, p);
    if Live(q.guard.value, s.clock) { assert Cover(s.clock, s.files, a.h, q, p.phase.c.epoch); }
  }

  lemma ClaimKeeps(s: State, a: Action, pre: Premises)
    requires Inv(s) && AllGuarded(s) && Enabled(s, a, pre) && Suffices(pre) && a.By? && ClaimStep(a.step)
    ensures GuardInv(s.clock, Next(s, a).files, a.h, Next(s, a).procs[a.h])
  {
    var p, q, t := s.procs[a.h], Next(s, a).procs[a.h], Next(s, a);
    assert GuardInv(s.clock, s.files, a.h, p) && ProcInv(s.clock, s.files, a.h, p);
    if q.guard.Some? && Live(q.guard.value, s.clock) {
      var e :| Cover(s.clock, s.files, a.h, p, e);
      if HasClaim(p.phase) { assert Live(p.phase.c, s.clock) && FileIs(s.files, a.h, p.phase.c); }
      SameCover(s.clock, s.files, t.files, a.h, p, q, e);
    }
  }

  lemma ScavengeReadKeeps(s: State, a: Action, pre: Premises)
    requires AllGuarded(s) && Enabled(s, a, pre) && a.By? && a.step.ScavengeRead?
    ensures GuardInv(s.clock, Next(s, a).files, a.h, Next(s, a).procs[a.h])
  {
    var p, q := s.procs[a.h], Next(s, a).procs[a.h];
    assert GuardInv(s.clock, s.files, a.h, p);
    if q.guard.Some? && Live(q.guard.value, s.clock) {
      var e :| Cover(s.clock, s.files, a.h, p, e);
      SameCover(s.clock, s.files, s.files, a.h, p, q, e);
    }
  }

  lemma ReleaseKeeps(s: State, a: Action, pre: Premises)
    requires AllGuarded(s) && Enabled(s, a, pre) && a.By? && ReleaseStep(a.step)
    ensures GuardInv(s.clock, Next(s, a).files, a.h, Next(s, a).procs[a.h])
  {
    assert GuardInv(s.clock, s.files, a.h, s.procs[a.h]);
  }

  lemma VerifyKeeps(s: State, a: Action, pre: Premises)
    requires AllGuarded(s) && Enabled(s, a, pre) && a.By? && VerifyStep(a.step) && !a.step.Own? && !a.step.Withdraw?
    ensures GuardInv(s.clock, Next(s, a).files, a.h, Next(s, a).procs[a.h])
  {
    var p, q := s.procs[a.h], Next(s, a).procs[a.h];
    assert GuardInv(s.clock, s.files, a.h, p);
    if q.guard.Some? && Live(q.guard.value, s.clock) {
      var e :| Cover(s.clock, s.files, a.h, p, e);
      SameCover(s.clock, s.files, s.files, a.h, p, q, e);
    }
  }

  lemma WithdrawKeeps(s: State, a: Action, pre: Premises)
    requires AllGuarded(s) && Enabled(s, a, pre) && Inv(s) && a.By? && a.step.Withdraw?
    ensures GuardInv(s.clock, Next(s, a).files, a.h, Next(s, a).procs[a.h])
  {
    assert GuardInv(s.clock, s.files, a.h, s.procs[a.h]) && ProcInv(s.clock, s.files, a.h, s.procs[a.h]);
  }

  /** What exclusion for users takes. */
  predicate GuardSuffices(pre: Premises) { Suffices(pre) && pre.quiet && ((pre.alone && pre.told) || pre.unseen) }

  lemma ActorKeeps(s: State, a: Action, pre: Premises)
    requires Inv(s) && AllGuarded(s) && Enabled(s, a, pre) && Suffices(pre) && pre.quiet && a.By?
    ensures GuardInv(s.clock, Next(s, a).files, a.h, Next(s, a).procs[a.h])
  {
    hide Inv, AllGuarded, GuardInv, Enabled, Next;
    if ClaimStep(a.step) { ClaimKeeps(s, a, pre); }
    else if a.step.ScavengeDelete? { ScavengeKeeps(s, a, pre); }
    else if a.step.Own? { OwnKeeps(s, a, pre); }
    else if a.step.Withdraw? { WithdrawKeeps(s, a, pre); }
    else if a.step.ScavengeRead? { ScavengeReadKeeps(s, a, pre); }
    else if ReleaseStep(a.step) { ReleaseKeeps(s, a, pre); }
    else { VerifyKeeps(s, a, pre); }
  }

  /** While somebody waits, no file is created. */
  lemma NothingNew(s: State, a: Action, pre: Premises, g: Holder)
    requires Enabled(s, a, pre) && pre.told && a.By? && g in s.procs && Waits(s.clock, s.procs[g])
    ensures Next(s, a).files.Keys <= s.files.Keys
  {
    hide NoneAbove, IsQuiet, IsExact;
  }

  lemma StepKeeps(s: State, a: Action, pre: Premises)
    requires Inv(s) && AllGuarded(s) && Enabled(s, a, pre) && Suffices(pre) && pre.quiet
    ensures AllGuarded(Next(s, a))
  {
    hide Inv, GuardInv, PhaseAllows, IsExact, Waits, Act;
    if a.Tick? {
      TickKeeps(s, a.d);
    } else {
      var t := Next(s, a);
      StepIsSafe(s, a, pre);
      ActorKeeps(s, a, pre);
      forall g | g in t.procs && g != a.h ensures GuardInv(t.clock, t.files, g, t.procs[g]) {
        OtherKeeps(s.clock, s.files, t.files, a.h, g, s.procs[g]);
      }
    }
  }

  // ---------------------------------------------------------------- while a user is exposed

  /** A claim that was covered by its own file alone: nobody below it could have passed its check. */
  lemma CoverBars(s: State, h: Holder, e: Epoch, g: Holder)
    requires Inv(s) && h in s.procs && s.procs[h].guard.Some? && Live(s.procs[h].guard.value, s.clock)
    requires Cover(s.clock, s.files, h, s.procs[h], e) && g in s.procs && g != h
    ensures !Passed(s.clock, s.procs[g])
  {
    var p := s.procs[g];
    assert ProcInv(s.clock, s.files, g, p);
  }

  /** A withdrawal exposes the user only in a directory where nobody can take advantage. */
  lemma WithdrawExposes(s: State, a: Action, pre: Premises)
    requires Inv(s) && AllGuarded(s) && Enabled(s, a, pre) && GuardSuffices(pre) && a.By? && a.step.Withdraw?
    requires Exposed(Next(s, a), a.h)
    ensures if pre.unseen then NonePassed(Next(s, a), a.h) else Unrivalled(s.clock, Next(s, a).files, a.h)
  {
    hide Inv, IsExact, Passed;
    var p, q, t := s.procs[a.h], Next(s, a).procs[a.h], Next(s, a);
    assert GuardInv(s.clock, s.files, a.h, p);
    var e :| Cover(s.clock, s.files, a.h, p, e);
    if e in t.files { SameCover(s.clock, s.files, t.files, a.h, p, q, e); }
    assert e == p.phase.c.epoch;
    forall g | g in t.procs && g != a.h ensures !Passed(t.clock, t.procs[g]) { CoverBars(s, a.h, e, g); }
  }

  lemma WaitsAfter(clock: int, files: Directory, h: Holder, p: Proc, step: Step)
    requires PhaseAllows(files, h, p, step) && Waits(clock, Act(clock, files, h, p, step).1)
    ensures step.Withdraw?
  {}

  /** Only a withdrawal exposes. */
  lemma ExposedBefore(s: State, a: Action, pre: Premises, h: Holder)
    requires Inv(s) && AllGuarded(s) && Enabled(s, a, pre) && Suffices(pre) && Exposed(Next(s, a), h)
    requires !(a.By? && a.h == h && a.step.Withdraw?)
    ensures Exposed(s, h) && !(a.By? && a.h == h)
  {
    hide Inv, PhaseAllows, IsExact, Act, Covered, IsQuiet, NoneAbove;
    var t, p := Next(s, a), s.procs[h];
    if a.Tick? {
      if Covered(s.clock, s.files, h, p) { TickCovers(s, a.d, h, p); }
    } else if a.h == h {
      WaitsAfter(s.clock, s.files, h, p, a.step);
    } else {
      StepIsSafe(s, a, pre);
      assert GuardInv(s.clock, s.files, h, p);
      OtherKeeps(s.clock, s.files, t.files, a.h, h, p);
    }
  }

  /** While somebody waits, nobody passes its check. */
  lemma NonePasses(s: State, a: Action, pre: Premises, h: Holder)
    requires Enabled(s, a, pre) && pre.unseen && h in s.procs && Waits(s.clock, s.procs[h]) && NonePassed(s, h)
    requires !(a.By? && a.h == h)
    ensures NonePassed(Next(s, a), h)
  {
    var t := Next(s, a);
    forall g | g in t.procs && g != h ensures !Passed(t.clock, t.procs[g]) { assert !Passed(s.clock, s.procs[g]); }
  }

  lemma WaitKeeps(s: State, a: Action, pre: Premises)
    requires Inv(s) && AllGuarded(s) && WaitInv(s, pre) && Enabled(s, a, pre) && GuardSuffices(pre)
    ensures WaitInv(Next(s, a), pre)
  {
    hide Inv, AllGuarded, NonePassed, Covered, Act, PhaseAllows, IsExact;
    var t := Next(s, a);
    forall h | Exposed(t, h) ensures if pre.unseen then NonePassed(t, h) else Unrivalled(t.clock, t.files, h) {
      if a.By? && a.h == h && a.step.Withdraw? {
        WithdrawExposes(s, a, pre);
      } else {
        ExposedBefore(s, a, pre, h);
        if pre.unseen { NonePasses(s, a, pre, h); } else if a.By? { StaysUnrivalled(s, a, pre, h); }
      }
    }
  }

  lemma StaysUnrivalled(s: State, a: Action, pre: Premises, h: Holder)
    requires Inv(s) && Enabled(s, a, pre) && Suffices(pre) && pre.told && a.By?
    requires h in s.procs && Waits(s.clock, s.procs[h]) && Unrivalled(s.clock, s.files, h)
    ensures Unrivalled(s.clock, Next(s, a).files, h)
  {
    hide Inv, Act, PhaseAllows, IsExact, Waits;
    StepIsSafe(s, a, pre);
    NothingNew(s, a, pre, h);
  }

  /** Two users that are covered are one. */
  lemma CoverClash(s: State, g: Holder, h: Holder)
    requires Relies(s, g) && Relies(s, h)
    requires Covered(s.clock, s.files, g, s.procs[g]) && Covered(s.clock, s.files, h, s.procs[h])
    ensures g == h
  {
    var d :| Cover(s.clock, s.files, g, s.procs[g], d);
    var e :| Cover(s.clock, s.files, h, s.procs[h], e);
  }

  /** Whoever owns has passed its check and has a file, so nobody else was exposed. */
  lemma OwnUnexposed(s: State, a: Action, pre: Premises, h: Holder)
    requires Inv(s) && WaitInv(s, pre) && Enabled(s, a, pre) && GuardSuffices(pre)
    requires a.By? && a.step.Own? && a.h != h && Relies(Next(s, a), a.h)
    ensures !Exposed(s, h)
  {
    hide Exposed;
    assert ProcInv(s.clock, s.files, a.h, s.procs[a.h]);
    assert Passed(s.clock, s.procs[a.h]) && FileIs(s.files, a.h, s.procs[a.h].phase.c);
  }

  /** Only `Own` gives a user something to rely on. */
  lemma ReliedBefore(s: State, a: Action, g: Holder)
    requires Enabled(s, a, CODE) && Relies(Next(s, a), g) && !(a.By? && a.h == g && a.step.Own?)
    ensures Relies(s, g)
  {}

  lemma StepExclusive(s: State, a: Action, pre: Premises)
    requires Inv(s) && AllGuarded(s) && WaitInv(s, pre) && GuardExclusive(s) && Enabled(s, a, pre)
    requires GuardSuffices(pre) && AllGuarded(Next(s, a))
    ensures GuardExclusive(Next(s, a))
  {
    hide Inv, AllGuarded, WaitInv, Next, PhaseAllows, IsExact, Relies;
    var t := Next(s, a);
    forall g: Holder, h: Holder | Relies(t, g) && Relies(t, h) ensures g == h {
      if a.By? && a.step.Own? && (a.h == g || a.h == h) {
        OwnClash(s, a, pre, if a.h == g then h else g);
      } else {
        ReliedBefore(s, a, g);
        ReliedBefore(s, a, h);
      }
    }
  }

  lemma OwnClash(s: State, a: Action, pre: Premises, h: Holder)
    requires Inv(s) && AllGuarded(s) && WaitInv(s, pre) && Enabled(s, a, pre) && GuardSuffices(pre)
    requires AllGuarded(Next(s, a)) && a.By? && a.step.Own? && Relies(Next(s, a), a.h) && Relies(Next(s, a), h)
    ensures a.h == h
  {
    hide Inv, WaitInv, PhaseAllows, IsExact, Covered;
    var t := Next(s, a);
    OwnCovers(s, a, pre);
    if a.h != h {
      OwnUnexposed(s, a, pre, h);
      assert GuardInv(s.clock, s.files, h, s.procs[h]);
      StepIsSafe(s, a, pre);
      OtherKeeps(s.clock, s.files, t.files, a.h, h, s.procs[h]);
      CoverClash(t, a.h, h);
    }
  }

  lemma OwnCovers(s: State, a: Action, pre: Premises)
    requires Inv(s) && AllGuarded(s) && Enabled(s, a, pre) && Suffices(pre) && a.By? && a.step.Own?
    requires Relies(Next(s, a), a.h)
    ensures Covered(Next(s, a).clock, Next(s, a).files, a.h, Next(s, a).procs[a.h])
  {
    hide Inv, AllGuarded, GuardInv, Covered;
    OwnKeeps(s, a, pre);
  }

  lemma {:induction false} RunKeeps(s: State, acts: seq<Action>, t: State, pre: Premises)
    requires Inv(s) && AllGuarded(s) && WaitInv(s, pre) && GuardExclusive(s) && Runs(s, acts, t, pre)
    requires GuardSuffices(pre)
    ensures GuardExclusive(t)
    decreases |acts|
  {
    hide Inv, AllGuarded, WaitInv, GuardExclusive, PhaseAllows, IsExact, Act;
    if acts != [] {
      EpochLock.StepKeeps(s, acts[0], pre);
      StepKeeps(s, acts[0], pre);
      WaitKeeps(s, acts[0], pre);
      StepExclusive(s, acts[0], pre);
      RunKeeps(Next(s, acts[0]), acts[1..], t, pre);
    }
  }

  /**
    At most one user relies on the lock, if renewals delete their previous file out of sight of rivals
    and either withdraw their claim so and nobody comes in before the user is told, or nobody verifies a
    claim before that.
   */
  lemma GuardExclusion(s: State, acts: seq<Action>, t: State, pre: Premises)
    requires Initial(s) && Runs(s, acts, t, pre) && GuardSuffices(pre)
    ensures GuardExclusive(t)
  {
    hide Runs;
    RunKeeps(s, acts, t, pre);
  }

  // ---------------------------------------------------------------- the renewal gap

  ghost predicate GuardSafeUnder(pre: Premises) {
    forall s, acts, t | Initial(s) && Runs(s, acts, t, pre) :: GuardExclusive(t)
  }

  lemma Refute(s: State, t: State, pre: Premises)
    requires Initial(s) && Reaches(s, t, pre) && !GuardExclusive(t)
    ensures !GuardSafeUnder(pre)
  {
    hide Runs, Initial, GuardExclusive;
    var acts :| Runs(s, acts, t, pre);
  }

  const RIVAL: Proc := P.(priority := 1)
  const FIRST: Claim := Claim(0, 0, 100)
  const SECOND: Claim := Claim(1, 0, 100)

  const F0: EpochFile := EpochFile(0, 0, 100, 0)
  const F1: EpochFile := EpochFile(1, 1, 100, 0)

  /** Holder 0 owns epoch 0. */
  const OWNER: Proc := Proc(0, 100, Some(FIRST), Some(FIRST), Idle, Some(Owner(0)))

  const START: State := State(0, map[], map[0 := P, 1 := RIVAL])

  lemma FirstOwns(pre: Premises)
    ensures Reaches(START, State(0, map[0 := F0], map[0 := OWNER, 1 := RIVAL]), pre)
  {
    hide Reaches;
    ReachSelf(START, pre);
    Listing(START, START, 0, 0, pre);
    var s := START.(procs := START.procs[0 := P.(phase := Putting(0))]);
    UndisturbedClaimOwns(START, s, 0, 0, pre);
    assert Owned(s, 0, 0) == State(0, map[0 := F0], map[0 := OWNER, 1 := RIVAL]);
  }

  /** The rival claims epoch 1. */
  lemma RivalClaims(pre: Premises)
    ensures Reaches(START, State(0, map[0 := F0, 1 := F1],
                                 map[0 := OWNER, 1 := RIVAL.(phase := Claimed(SECOND))]), pre)
  {
    hide Reaches;
    FirstOwns(pre);
    var s := State(0, map[0 := F0], map[0 := OWNER, 1 := RIVAL]);
    assert s.files.Keys == {0};
    Listing(START, s, 1, 1, pre);
    var s1 := s.(procs := s.procs[1 := RIVAL.(phase := Putting(1))]);
    DoPut(START, s1, 1, 1, pre);
    assert State(s1.clock, s1.files[1 := F1], s1.procs[1 := RIVAL.(phase := Claimed(SECOND))])
        == State(0, map[0 := F0, 1 := F1], map[0 := OWNER, 1 := RIVAL.(phase := Claimed(SECOND))]);
  }

  /** It finds file 0 alive, lists it as lower and is about to read it. */
  lemma RivalChecks(pre: Premises)
    ensures Reaches(START,
                    State(0, map[0 := F0, 1 := F1],
                          map[0 := OWNER, 1 := RIVAL.(phase := Checking(SECOND, {0}, map[], false))]), pre)
  {
    hide Reaches;
    RivalClaims(pre);
    var s2 := State(0, map[0 := F0, 1 := F1], map[0 := OWNER, 1 := RIVAL.(phase := Claimed(SECOND))]);
    DoBeginScavenge(START, s2, 1, SECOND, pre);
    assert Below(s2.files, 1) == map[0 := 0];
    var s3 := Moved(s2, 1, RIVAL.(phase := Scavenging(SECOND, map[0 := 0], None, false)));
    assert s3.procs[1].phase.todo.Keys == {0};
    ReachStep(START, s3, By(1, ScavengeRead), pre);
    assert Least({0}) == 0 && map[0 := 0] - {0} == map[];
    var s4 := Moved(s2, 1, RIVAL.(phase := Scavenging(SECOND, map[], None, false)));
    assert Next(s3, By(1, ScavengeRead)) == s4;
    DoVerifyList(START, s4, 1, SECOND, pre);
    assert Below(s4.files, 1).Keys == {0} && Above(s4.files, 1) == map[];
    assert Moved(s4, 1, RIVAL.(phase := Checking(SECOND, {0}, map[], false))).procs ==
           map[0 := OWNER, 1 := RIVAL.(phase := Checking(SECOND, {0}, map[], false))];
  }

  const THIRD: Claim := Claim(2, 0, 100)

  /** The owner renews: it claims epoch 2. */
  lemma OwnerClaims(s: State, pre: Premises) returns (t: State)
    requires Reaches(START, s, pre) && s.clock == 0 && s.files == map[0 := F0, 1 := F1] && 0 in s.procs
    requires s.procs[0] == OWNER && NobodyWaits(s)
    ensures var todo := map[0 := 0, 1 := 0];
            var p := OWNER.(held := None, phase := Scavenging(THIRD, todo, None, false), status := None);
            t == State(0, map[0 := F0, 1 := F1, 2 := F0], s.procs[0 := p]) && Reaches(START, t, pre)
  {
    hide Reaches;
    assert s.files.Keys == {0, 1};
    Listing(START, s, 0, 2, pre);
    var q := OWNER.(status := None);
    var s1 := s.(procs := s.procs[0 := q.(phase := Putting(2))]);
    DoPut(START, s1, 0, 2, pre);
    var s2 := State(0, map[0 := F0, 1 := F1, 2 := F0], s.procs[0 := q.(phase := Claimed(THIRD))]);
    assert State(0, s1.files[2 := F0], s1.procs[0 := q.(phase := Claimed(THIRD))]) == s2;
    DoBeginScavenge(START, s2, 0, THIRD, pre);
    var todo := map[0 := 0, 1 := 0];
    assert Below(s2.files, 2) == todo;
    t := Moved(s2, 0, q.(held := None, phase := Scavenging(THIRD, todo, None, false)));
    assert t.procs == s.procs[0 := q.(held := None, phase := Scavenging(THIRD, todo, None, false))];
  }

  /** It deletes its file 0. */
  lemma OwnerRenews(s: State, pre: Premises) returns (t: State)
    requires Reaches(START, s, pre) && !pre.quiet && s.clock == 0 && s.files == map[0 := F0, 1 := F1]
    requires 0 in s.procs && s.procs[0] == OWNER && NobodyWaits(s)
    ensures Reaches(START, t, pre) && t.clock == 0 && 0 in t.procs && t.procs == s.procs[0 := t.procs[0]]
    ensures t.files == map[1 := F1, 2 := F0] && t.procs[0].guard == Some(FIRST) && !t.procs[0].phase.Returning?
  {
    hide Reaches;
    var s3 := OwnerClaims(s, pre);
    var todo := s3.procs[0].phase.todo;
    assert todo.Keys == {0, 1} && Least(todo.Keys) == 0;
    ReachStep(START, s3, By(0, ScavengeRead), pre);
    var p := s3.procs[0];
    var s4 := Moved(s3, 0, p.(phase := Scavenging(THIRD, todo - {0}, Some(Doomed(0, F0)), false)));
    assert Next(s3, By(0, ScavengeRead)) == s4;
    DoScavengeDelete(START, s4, 0, 0, pre);
    t := State(0, s4.files - {0}, s4.procs[0 := p.(phase := Scavenging(THIRD, todo - {0}, None, false))]);
    assert t.files == map[1 := F1, 2 := F0];
    assert t.procs == s.procs[0 := t.procs[0]];
  }

  lemma DoScavengeDelete(r: State, s: State, h: Holder, x: Epoch, pre: Premises)
    requires Reaches(r, s, pre) && h in s.procs && s.procs[h].phase.Scavenging? && x in s.files
    requires s.procs[h].phase.doomed == Some(Doomed(x, s.files[x])) && Live(s.procs[h].phase.c, s.clock)
    requires pre.quiet ==> NoRival(s.clock, s.files, h, s.procs[h].phase.c.epoch)
    ensures var ph := s.procs[h].phase;
            Reaches(r, State(s.clock, s.files - {x},
                             s.procs[h := s.procs[h].(phase := Scavenging(ph.c, ph.todo, None, ph.regression))]), pre)
  {
    hide Reaches;
    ReachStep(r, s, By(h, ScavengeDelete(true)), pre);
  }

  /** The rival finds file 0 gone and owns. */
  lemma RivalOwns(s: State, pre: Premises) returns (t: State)
    requires Reaches(START, s, pre) && s.clock == 0 && s.files == map[1 := F1, 2 := F0]
    requires 0 in s.procs && 1 in s.procs && NobodyWaits(s)
    requires s.procs[1] == RIVAL.(phase := Checking(SECOND, {0}, map[], false))
    ensures Reaches(START, t, pre) && t.clock == 0 && t.procs.Keys == s.procs.Keys
    ensures t.procs[0] == s.procs[0] && t.procs[1].guard == Some(SECOND)
  {
    hide Reaches;
    var p := RIVAL.(phase := Checking(SECOND, {}, map[], false));
    assert Least({0}) == 0 && {0} - {0} == {};
    ReachStep(START, s, By(1, CheckRead), pre);
    var s1 := Moved(s, 1, p);
    assert Next(s, By(1, CheckRead)) == s1;
    DoCheckDone(START, s1, 1, SECOND, map[], pre);
    var s2 := Moved(s1, 1, p.(phase := Yielding(SECOND, map[])));
    ReachStep(START, s2, By(1, Own), pre);
    t := Next(s2, By(1, Own));
  }

  /** A contender in the middle of its check finds the file gone and owns, before the renewing user is told. */
  lemma RenewalGapBreaks(pre: Premises)
    requires !pre.quiet
    ensures !GuardSafeUnder(pre)
  {
    hide Reaches;
    RivalChecks(pre);
    var s := State(0, map[0 := F0, 1 := F1],
                   map[0 := OWNER, 1 := RIVAL.(phase := Checking(SECOND, {0}, map[], false))]);
    var t := OwnerRenews(s, pre);
    assert t.procs[1] == s.procs[1];
    var u := RivalOwns(t, pre);
    assert Relies(u, 0) && Relies(u, 1);
    Refute(START, u, pre);
  }

  // ---------------------------------------------------------------- withdrawn before the user is told

  /** The owner renews alone: it claims epoch 1 and deletes its file 0. */
  lemma RenewsAlone(pre: Premises)
    ensures var p := OWNER.(held := None, phase := Scavenging(SECOND, map[], None, false), status := None);
            Reaches(START, State(0, map[1 := F0], map[0 := p, 1 := RIVAL]), pre)
  {
    hide Reaches;
    FirstOwns(pre);
    var s := State(0, map[0 := F0], map[0 := OWNER, 1 := RIVAL]);
    assert s.files.Keys == {0};
    Listing(START, s, 0, 1, pre);
    var q := OWNER.(status := None);
    var s1 := Moved(s, 0, q.(phase := Putting(1)));
    DoPut(START, s1, 0, 1, pre);
    var s2 := State(0, map[0 := F0, 1 := F0], map[0 := q.(phase := Claimed(SECOND)), 1 := RIVAL]);
    assert State(0, s1.files[1 := F0], s1.procs[0 := q.(phase := Claimed(SECOND))]) == s2;
    DoBeginScavenge(START, s2, 0, SECOND, pre);
    assert Below(s2.files, 1) == map[0 := 0];
    ClearsOwn(Moved(s2, 0, q.(held := None, phase := Scavenging(SECOND, map[0 := 0], None, false))), pre);
  }

  lemma ClearsOwn(s: State, pre: Premises)
    requires Reaches(START, s, pre) && s.clock == 0 && s.files == map[0 := F0, 1 := F0]
    requires var p := OWNER.(held := None, phase := Scavenging(SECOND, map[0 := 0], None, false), status := None);
             s.procs == map[0 := p, 1 := RIVAL]
    ensures var p := OWNER.(held := None, phase := Scavenging(SECOND, map[], None, false), status := None);
            Reaches(START, State(0, map[1 := F0], map[0 := p, 1 := RIVAL]), pre)
  {
    hide Reaches;
    var p := s.procs[0];
    assert p.phase.todo.Keys == {0} && Least({0}) == 0 && map[0 := 0] - {0} == map[];
    ReachStep(START, s, By(0, ScavengeRead), pre);
    var s1 := Moved(s, 0, p.(phase := Scavenging(SECOND, map[], Some(Doomed(0, F0)), false)));
    assert Next(s, By(0, ScavengeRead)) == s1;
    DoScavengeDelete(START, s1, 0, 0, pre);
    assert State(0, s1.files - {0}, s1.procs[0 := p.(phase := Scavenging(SECOND, map[], None, false))]) ==
           State(0, map[1 := F0],
                 map[0 := p.(phase := Scavenging(SECOND, map[], None, false)), 1 := RIVAL]);
  }

  /** The renewing owner, its claim about to be withdrawn for a rival of higher priority that has put file 2. */
  const YIELDING: State :=
    State(0, map[1 := F0, 2 := F1],
          map[0 := OWNER.(held := None, phase := Withdrawing(SECOND, Yielded), status := None),
              1 := RIVAL.(phase := Heading(THIRD))])

  lemma RivalPuts(pre: Premises)
    ensures var p := OWNER.(held := None, phase := Scavenging(SECOND, map[], None, false), status := None);
            Reaches(START, YIELDING.(procs := YIELDING.procs[0 := p]), pre)
  {
    hide Reaches;
    RenewsAlone(pre);
    var p := OWNER.(held := None, phase := Scavenging(SECOND, map[], None, false), status := None);
    var s := State(0, map[1 := F0], map[0 := p, 1 := RIVAL]);
    assert s.files.Keys == {1};
    Listing(START, s, 1, 2, pre);
    var s1 := Moved(s, 1, RIVAL.(phase := Putting(2)));
    ReachStep(START, s1, By(1, Put), pre);
    assert Next(s1, By(1, Put)) == YIELDING.(procs := YIELDING.procs[0 := p]);
  }

  lemma OwnerYields(pre: Premises)
    ensures Reaches(START, YIELDING, pre)
  {
    hide Reaches;
    RivalPuts(pre);
    var p := OWNER.(held := None, phase := Scavenging(SECOND, map[], None, false), status := None);
    var s := YIELDING.(procs := YIELDING.procs[0 := p]);
    DoVerifyList(START, s, 0, SECOND, pre);
    assert Below(s.files, 1).Keys == {} && Above(s.files, 1) == map[2 := 0];
    var s1 := Moved(s, 0, p.(phase := Checking(SECOND, {}, map[2 := 0], false)));
    DoCheckDone(START, s1, 0, SECOND, map[2 := 0], pre);
    var s2 := Moved(s1, 0, p.(phase := Yielding(SECOND, map[2 := 0])));
    assert s2.procs[0].phase.higher.Keys == {2} && Least({2}) == 2;
    ReachStep(START, s2, By(0, YieldRead), pre);
    assert Next(s2, By(0, YieldRead)).procs == YIELDING.procs;
  }

  /** The claim is deleted while the rival's file is there; the rival owns before the renewing user is told. */
  lemma YieldGapBreaks(pre: Premises)
    requires !pre.alone && !pre.unseen
    ensures !GuardSafeUnder(pre)
  {
    hide Reaches;
    OwnerYields(pre);
    var s := YIELDING;
    ReachStep(START, s, By(0, Withdraw(true)), pre);
    var s1 := Next(s, By(0, Withdraw(true)));
    assert s1.files == map[2 := F1];
    ReachStep(START, s1, By(1, Head), pre);
    var s2 := Next(s1, By(1, Head));
    assert Below(s2.files, 2) == map[];
    ClaimedOwns(START, s2, 1, THIRD, pre);
    var t := Moved(s2, 1, OwnerProc(s2.procs[1].(phase := Yielding(THIRD, map[]))));
    assert Relies(t, 0) && Relies(t, 1);
    Refute(START, t, pre);
  }

  /** The rival meets an error and deletes its file; then the owner deletes its claim. */
  lemma WithdrawsUnseen(pre: Premises)
    ensures Reaches(START, State(0, map[], map[0 := OWNER.(held := None, phase := Returning(Yielded), status := None),
                                               1 := RIVAL.(status := Some(StoreError))]), pre)
  {
    hide Reaches;
    OwnerYields(pre);
    ReachStep(START, YIELDING, By(1, HeadError(true)), pre);
    var s1 := State(0, map[1 := F0], YIELDING.procs[1 := RIVAL.(status := Some(StoreError))]);
    assert Next(YIELDING, By(1, HeadError(true))) == s1;
    ReachStep(START, s1, By(0, Withdraw(true)), pre);
    assert Next(s1, By(0, Withdraw(true))) ==
           State(0, map[], map[0 := OWNER.(held := None, phase := Returning(Yielded), status := None),
                               1 := RIVAL.(status := Some(StoreError))]);
  }

  /** The rival's file is gone when the claim is deleted, and the rival comes back before the user is told. */
  lemma LateTellBreaks(pre: Premises)
    requires !pre.told && !pre.unseen
    ensures !GuardSafeUnder(pre)
  {
    hide Reaches;
    WithdrawsUnseen(pre);
    var s := State(0, map[], map[0 := OWNER.(held := None, phase := Returning(Yielded), status := None),
                                 1 := RIVAL.(status := Some(StoreError))]);
    Listing(START, s, 1, 0, pre);
    var s1 := Moved(s, 1, RIVAL.(phase := Putting(0)));
    UndisturbedClaimOwns(START, s1, 1, 0, pre);
    var t := Owned(s1, 1, 0);
    assert Relies(t, 0) && Relies(t, 1);
    Refute(START, t, pre);
  }

  lemma BrokenIsUnsafe(pre: Premises)
    requires Broken(pre)
    ensures !GuardSafeUnder(pre)
  {
    hide Reaches;
    var s, t, g, h :| Initial(s) && Reaches(s, t, pre) && BothHold(t, g, h);
    assert Relies(t, g) && Relies(t, h);
    Refute(s, t, pre);
  }

  /**
    Users are excluded from each other in all runs exactly when holders are, renewals delete out of
    sight of rivals, and either withdraw so and nobody comes in before the user is told, or nobody
    verifies a claim before that.
   */
  lemma GuardExactly(pre: Premises)
    ensures GuardSafeUnder(pre) <==> GuardSuffices(pre)
  {
    hide Runs, GuardExclusive, Broken;
    if !pre.quiet {
      RenewalGapBreaks(pre);
    } else if !pre.alone && !pre.unseen {
      YieldGapBreaks(pre);
    } else if !pre.told && !pre.unseen {
      LateTellBreaks(pre);
    } else if !Suffices(pre) {
      BreaksWithout(pre);
      BrokenIsUnsafe(pre);
    } else {
      forall s, acts, t | Initial(s) && Runs(s, acts, t, pre) ensures GuardExclusive(t) {
        GuardExclusion(s, acts, t, pre);
      }
    }
  }
}
