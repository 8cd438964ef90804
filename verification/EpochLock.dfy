/**
  The epoch lock on an object store.

  Holders share a directory of epoch files.  `acquire` claims the next epoch, scavenges lower
  files and verifies that its own file is the lowest one left.  Every request to the store is one
  step here and the steps of different holders interleave freely; any request may also fail.
 */
module EpochLock {
  import opened Prelude

  type Holder = nat
  type Epoch = nat

  /** Largest epoch that fits in eight base32 characters. */
  const MAX_EPOCH: nat := 0xFF_FFFF_FFFF

  /** An epoch file with the store's modification time. */
  datatype EpochFile = EpochFile(holder: Holder, priority: nat, duration: nat, lastModified: int) {
    function ExpiresAt(): int { lastModified + duration }
    predicate ExpiredAt(t: int) { ExpiresAt() <= t }
  }

  type Directory = map<Epoch, EpochFile>

  /** What a holder knows of the file it created. */
  datatype Claim = Claim(epoch: Epoch, ts: int, duration: nat)

  datatype Status = Owner(epoch: Epoch) | Queued | QueuedBackwardClock | Yielded | Failed | NotOwner | StoreError

  /** What a LIST told of some files: when each was last modified. */
  type Times = map<Epoch, int>

  /** A file that was read and is to be deleted, as it was read. */
  datatype Doomed = Doomed(epoch: Epoch, file: EpochFile)

  /** Where a holder stands inside `acquire` or `release`. */
  datatype Phase =
    | Idle
    | Claiming
    | Putting(next: Epoch)
    | Heading(c: Claim)
    | Claimed(c: Claim)
    | Scavenging(c: Claim, todo: Times, doomed: Option<Doomed>, regression: bool)
    | Checking(c: Claim, lower: set<Epoch>, higher: Times, regression: bool)
    | Yielding(c: Claim, higher: Times)
    | Withdrawing(c: Claim, outcome: Status)
    | Returning(outcome: Status)
    | Releasing(listed: set<Epoch>, read: map<Epoch, EpochFile>)

  predicate HasClaim(ph: Phase) {
    ph.Heading? || ph.Claimed? || ph.Scavenging? || ph.Checking? || ph.Yielding? || ph.Withdrawing?
  }

  /**
    `held` is the claim of the last acquire that returned `Owner`.  It is given up when a later
    acquire starts scavenging or when a release starts.  `guard` is what the user of the lock relies
    on: that same claim, until the user is told that a later acquire has come to anything but `Owner`
    or an error.  That is after the acquire has deleted what it withdraws.
   */
  datatype Proc = Proc(
    priority: nat,
    duration: nat,
    held: Option<Claim>,
    guard: Option<Claim>,
    phase: Phase,
    status: Option<Status>)

  datatype State = State(clock: int, files: Directory, procs: map<Holder, Proc>)

  predicate Live(c: Claim, now: int) { now < c.ts + c.duration }

  predicate FileIs(files: Directory, h: Holder, c: Claim) {
    && c.epoch in files
    && var f := files[c.epoch]; f.holder == h && f.lastModified == c.ts && f.duration == c.duration
  }

  function NextEpoch(files: Directory): Epoch {
    if files.Keys == {} then 0 else Greatest(files.Keys) + 1
  }

  function Below(files: Directory, e: Epoch): Times { map x | x in files && x < e :: files[x].lastModified }

  function Above(files: Directory, e: Epoch): Times { map x | x in files && e < x :: files[x].lastModified }

  /** The split that `verify_ownership` makes of a listing sorted by epoch, in one pass over it. */
  method PartitionAround(metas: seq<Epoch>, mine: Epoch)
    returns (lower: seq<Epoch>, minePresent: bool, higher: seq<Epoch>)
    requires forall i, j | 0 <= i < j < |metas| :: metas[i] < metas[j]
    ensures metas == lower + (if minePresent then [mine] else []) + higher
    ensures forall x :: x in lower <==> x in metas && x < mine
    ensures forall x :: x in higher <==> x in metas && mine < x
  {
    lower, minePresent, higher := [], false, [];
    for i := 0 to |metas|
      invariant metas[..i] == lower + (if minePresent then [mine] else []) + higher
      invariant forall k | 0 <= k < |lower| :: lower[k] < mine
      invariant forall k | 0 <= k < |higher| :: mine < higher[k]
    {
      assert metas[..i + 1] == metas[..i] + [metas[i]];
      assert higher != [] ==> metas[..i][i - 1] == higher[|higher| - 1];
      assert higher == [] && minePresent ==> metas[..i][i - 1] == mine;
      assert i > 0 ==> metas[i - 1] < metas[i];
      if metas[i] < mine {
        lower := lower + [metas[i]];
      } else if metas[i] == mine {
        minePresent := true;
      } else {
        higher := higher + [metas[i]];
      }
    }
    assert metas[..|metas|] == metas;
  }

  // ---------------------------------------------------------------- steps

  datatype Step =
    | Start                      // acquire gets past its fast path; that hangs on the local clock, so it always may
    | Reject                     // fast path: a holder of no lower priority is in place
    | List                       // put_next_epoch: LIST and compute highest + 1
    | Put                        // put_next_epoch: put-if-absent
    | Head                       // put_next_epoch: HEAD of the new file for its timestamp
    | HeadError(gone: bool)      // HEAD failed; best-effort delete of the claim
    | BeginScavenge              // LIST of scavenge_below
    | ScavengeRead               // read the next lower file and judge it
    | ScavengeDelete(gone: bool)
    | VerifyList                 // LIST of verify_ownership
    | CheckRead                  // first_readable_entry and classify_loss
    | CheckDone
    | YieldRead                  // should_yield
    | Own                        // acquire returns Owner
    | Withdraw(gone: bool)       // best-effort delete of the own file
    | Return                     // acquire returns something else, and the user is told
    | Abort                      // a request failed; the call returns an error
    | Crash
    | BeginRelease               // LIST of release
    | ReleaseRead(x: Epoch)      // read a listed file and see whose it is
    | ReleaseDelete(x: Epoch, gone: bool)
    | EndRelease

  /** Store time passes, or a holder makes its next request. */
  datatype Action = Tick(d: nat) | By(h: Holder, step: Step)

  /**
    What is asked of a run beyond the code itself.

    `freshPut`: a created epoch exceeds every epoch present when it is created.  `exact`: a path
    that a holder has created or read holds that file or none when the holder takes the timestamp
    from it or deletes it.  `timelyClaim`: a holder acts on its claim only while the lease of that
    claim runs.  `timelyRelease`: a release deletes a file only while the lease of the file runs.
    `quiet`: when an acquire deletes an unexpired file of its own holder, no other holder has an
    unexpired file below the new claim.  `alone`: when an acquire withdraws while its user still
    relies on the lock, no other holder has an unexpired file above the claim.  `told`: nobody creates
    a file between such a withdrawal and the moment the user is told.  `unseen`: nobody verifies a claim
    between the two, by a listing or a read of what was listed.
   */
  datatype Premises = Premises(
    freshPut: bool,
    exact: bool,
    timelyClaim: bool,
    timelyRelease: bool,
    quiet: bool,
    alone: bool,
    told: bool,
    unseen: bool)

  const CODE: Premises := Premises(false, false, false, false, false, false, false, false)

  /** What exclusion takes. */
  predicate Suffices(pre: Premises) { pre.freshPut && (pre.exact || (pre.timelyClaim && pre.timelyRelease)) }

  predicate PhaseAllows(files: Directory, h: Holder, p: Proc, step: Step) {
    match step
    case Start => p.phase.Idle?
    case Reject => p.phase.Idle? && files.Keys != {}
                      && var o := files[Least(files.Keys)]; o.holder != h && o.priority >= p.priority
    case List => p.phase.Claiming?
    case Put => p.phase.Putting?
    case Head => p.phase.Heading? && p.phase.c.epoch in files
    case HeadError(_) => p.phase.Heading?
    case BeginScavenge => p.phase.Claimed?
    case ScavengeRead => p.phase.Scavenging? && p.phase.doomed.None? && p.phase.todo.Keys != {}
    case ScavengeDelete(_) => p.phase.Scavenging? && p.phase.doomed.Some?
    case VerifyList => p.phase.Scavenging? && p.phase.doomed.None? && p.phase.todo.Keys == {}
    case CheckRead => p.phase.Checking? && p.phase.lower != {}
    case CheckDone => p.phase.Checking? && p.phase.lower == {}
    case YieldRead => p.phase.Yielding? && p.phase.higher.Keys != {}
    case Own => p.phase.Yielding? && p.phase.higher.Keys == {}
    case Withdraw(_) => p.phase.Withdrawing?
    case Return => p.phase.Returning?
    case Abort => !p.phase.Idle? && !p.phase.Returning?
    case Crash => true
    case BeginRelease => p.phase.Idle?
    case ReleaseRead(x) => p.phase.Releasing? && x in p.phase.listed
    case ReleaseDelete(x, _) => p.phase.Releasing? && x in p.phase.read
    case EndRelease => p.phase.Releasing? && p.phase.listed == {} && p.phase.read.Keys == {}
  }

  /** The path that the step goes back to holds what the holder left or read there, or nothing. */
  predicate IsExact(files: Directory, h: Holder, p: Proc, step: Step)
    requires PhaseAllows(files, h, p, step)
  {
    match step
    case Head => FileIs(files, h, p.phase.c)
    case HeadError(_) => p.phase.c.epoch in files ==> FileIs(files, h, p.phase.c)
    case Withdraw(_) => p.phase.c.epoch in files ==> FileIs(files, h, p.phase.c)
    case ScavengeDelete(_) =>
      var d := p.phase.doomed.value; d.epoch in files ==> files[d.epoch] == d.file
    case ReleaseDelete(x, _) => x in files ==> files[x] == p.phase.read[x]
    case _ => true
  }

  predicate Enabled(s: State, a: Action, pre: Premises) {
    a.Tick? ||
    (&& a.h in s.procs
     && var p := s.procs[a.h];
     && PhaseAllows(s.files, a.h, p, a.step)
     && (pre.freshPut && a.step.Put? && p.phase.next !in s.files ==> forall x | x in s.files :: x < p.phase.next)
     && (pre.exact ==> IsExact(s.files, a.h, p, a.step))
     && (pre.timelyClaim && HasClaim(p.phase) && !a.step.Abort? && !a.step.Crash? ==> Live(p.phase.c, s.clock))
     && (pre.timelyRelease && a.step.ReleaseDelete? ==> !p.phase.read[a.step.x].ExpiredAt(s.clock))
     && (pre.quiet && a.step.ScavengeDelete? ==> IsQuiet(s.clock, s.files, a.h, p))
     && (pre.alone && a.step.Withdraw? && p.guard.Some? && Live(p.guard.value, s.clock) ==>
           NoneAbove(s.clock, s.files, a.h, p.phase.c.epoch))
     && (pre.told && a.step.Put? && p.phase.next !in s.files ==> NobodyWaits(s))
     && (pre.unseen && (a.step.VerifyList? || a.step.CheckRead?) ==> NobodyWaits(s)))
  }

  /** The acquire has withdrawn its claim and the user does not know yet. */
  predicate Waits(clock: int, p: Proc) {
    && p.phase.Returning? && (p.phase.outcome.Failed? || p.phase.outcome.Yielded?)
    && p.guard.Some? && Live(p.guard.value, clock)
  }

  predicate NobodyWaits(s: State) { forall g | g in s.procs :: !Waits(s.clock, s.procs[g]) }

  /** Nobody else has an unexpired file above `e`. */
  predicate NoneAbove(clock: int, files: Directory, h: Holder, e: Epoch) {
    forall x | x in files && x > e :: files[x].holder == h || files[x].ExpiredAt(clock)
  }

  /** Nobody else has an unexpired file below `e`. */
  predicate NoRival(clock: int, files: Directory, h: Holder, e: Epoch) {
    forall x | x in files && x < e :: files[x].holder == h || files[x].ExpiredAt(clock)
  }

  predicate IsQuiet(clock: int, files: Directory, h: Holder, p: Proc)
    requires p.phase.Scavenging? && p.phase.doomed.Some?
  {
    var f := p.phase.doomed.value.file;
    f.holder == h && !f.ExpiredAt(clock) ==> NoRival(clock, files, h, p.phase.c.epoch)
  }

  /** A delete of `x` that the store may refuse. */
  function Deleted(files: Directory, x: Epoch, gone: bool): Directory {
    if gone then files - {x} else files
  }

  /** The loss reason when the surviving lower file `owner` outranks the claim. */
  function ClassifyLoss(p: Proc, c: Claim, owner: EpochFile, regression: bool): Proc {
    if regression then p.(phase := Returning(QueuedBackwardClock))
    else if p.priority > owner.priority then p.(phase := Returning(Queued))
    else p.(phase := Withdrawing(c, Failed))
  }

  /** The contents come from the GET, the timestamp from the LIST before it. */
  function ScavengeReadProc(files: Directory, h: Holder, p: Proc): Proc
    requires p.phase.Scavenging? && p.phase.todo.Keys != {}
  {
    var ph := p.phase;
    var x := Least(ph.todo.Keys);
    var rest := ph.todo - {x};
    if x !in files then p.(phase := Scavenging(ph.c, rest, None, ph.regression))
    else
      var f := files[x].(lastModified := ph.todo[x]);
      if f.ExpiredAt(ph.c.ts) || f.holder == h
      then p.(phase := Scavenging(ph.c, rest, Some(Doomed(x, f)), ph.regression))
      else p.(phase := Scavenging(ph.c, rest, None, ph.regression || f.lastModified > ph.c.ts))
  }

  function CheckReadProc(files: Directory, p: Proc): Proc
    requires p.phase.Checking? && p.phase.lower != {}
  {
    var ph := p.phase;
    var x := Least(ph.lower);
    if x in files then ClassifyLoss(p, ph.c, files[x], ph.regression)
    else p.(phase := Checking(ph.c, ph.lower - {x}, ph.higher, ph.regression))
  }

  function YieldReadProc(files: Directory, p: Proc): Proc
    requires p.phase.Yielding? && p.phase.higher.Keys != {}
  {
    var ph := p.phase;
    var x := Least(ph.higher.Keys);
    if x in files && files[x].priority > p.priority && ph.c.ts < files[x].(lastModified := ph.higher[x]).ExpiresAt()
    then p.(phase := Withdrawing(ph.c, Yielded))
    else p.(phase := Yielding(ph.c, ph.higher - {x}))
  }

  /** The acting holder's state once its yield check has passed. */
  function OwnerProc(p: Proc): Proc
    requires p.phase.Yielding?
  {
    p.(held := Some(p.phase.c), guard := Some(p.phase.c), phase := Idle, status := Some(Owner(p.phase.c.epoch)))
  }

  /** The directory and the acting holder after a step. */
  function Act(clock: int, files: Directory, h: Holder, p: Proc, step: Step): (Directory, Proc)
    requires PhaseAllows(files, h, p, step)
  {
    match step
    case Start => (files, p.(phase := Claiming, status := None))
    case Reject => (files, p.(phase := Returning(NotOwner), status := None))
    case List =>
      var next := NextEpoch(files);
      (files, if next <= MAX_EPOCH then p.(phase := Putting(next)) else p.(phase := Idle, status := Some(StoreError)))
    case Put =>
      var next := p.phase.next;
      if next in files then (files, p.(phase := Claiming))
      else (files[next := EpochFile(h, p.priority, p.duration, clock)],
            p.(phase := Heading(Claim(next, clock, p.duration))))
    case Head => (files, p.(phase := Claimed(p.phase.c.(ts := files[p.phase.c.epoch].lastModified))))
    case HeadError(gone) =>
      (Deleted(files, p.phase.c.epoch, gone), p.(phase := Idle, status := Some(StoreError)))
    case BeginScavenge =>
      var c := p.phase.c;
      (files, p.(held := None, phase := Scavenging(c, Below(files, c.epoch), None, false)))
    case ScavengeRead => (files, ScavengeReadProc(files, h, p))
    case ScavengeDelete(gone) =>
      (Deleted(files, p.phase.doomed.value.epoch, gone),
       p.(phase := Scavenging(p.phase.c, p.phase.todo, None, p.phase.regression)))
    case VerifyList =>
      var c := p.phase.c;
      (files, p.(phase := if c.epoch in files
                          then Checking(c, Below(files, c.epoch).Keys, Above(files, c.epoch), p.phase.regression)
                          else Withdrawing(c, Failed)))
    case CheckRead => (files, CheckReadProc(files, p))
    case CheckDone => (files, p.(phase := Yielding(p.phase.c, p.phase.higher)))
    case YieldRead => (files, YieldReadProc(files, p))
    case Own => (files, OwnerProc(p))
    case Withdraw(gone) => (Deleted(files, p.phase.c.epoch, gone), p.(phase := Returning(p.phase.outcome)))
    case Return => (files, p.(guard := None, phase := Idle, status := Some(p.phase.outcome)))
    case Abort => (files, p.(phase := Idle, status := Some(StoreError)))
    case Crash => (files, p.(held := None, guard := None, phase := Idle, status := None))
    case BeginRelease => (files, p.(held := None, guard := None, phase := Releasing(files.Keys, map[])))
    case ReleaseRead(x) =>
      var read := if x in files && files[x].holder == h then p.phase.read[x := files[x]] else p.phase.read;
      (files, p.(phase := Releasing(p.phase.listed - {x}, read)))
    case ReleaseDelete(x, gone) =>
      (Deleted(files, x, gone), p.(phase := Releasing(p.phase.listed, p.phase.read - {x})))
    case EndRelease => (files, p.(phase := Idle))
  }

  function Next(s: State, a: Action): State
    requires Enabled(s, a, CODE)
  {
    if a.Tick? then s.(clock := s.clock + a.d)
    else
      var r := Act(s.clock, s.files, a.h, s.procs[a.h], a.step);
      State(s.clock, r.0, s.procs[a.h := r.1])
  }

  /** `t` is reached from `s` by the actions `acts` under the premises. */
  ghost predicate Runs(s: State, acts: seq<Action>, t: State, pre: Premises)
    decreases |acts|
  {
    if acts == [] then t == s
    else Enabled(s, acts[0], pre) && Runs(Next(s, acts[0]), acts[1..], t, pre)
  }

  /** Nobody is in the middle of a call; the directory may hold leftovers of any kind. */
  ghost predicate Initial(s: State) {
    && (forall x | x in s.files :: s.files[x].lastModified <= s.clock)
    && (forall h | h in s.procs ::
        s.procs[h].phase.Idle? && s.procs[h].held.None? && s.procs[h].guard.None? && s.procs[h].status.None?)
  }

  // ---------------------------------------------------------------- the invariant

  ghost predicate IsLowest(files: Directory, e: Epoch) { forall x | x in files :: e <= x }

  /** What the directory looks like to a holder whose claim `c` still runs. */
  ghost predicate ClaimInv(files: Directory, h: Holder, c: Claim) {
    FileIs(files, h, c) && forall x | x in files && x < c.epoch :: files[x].lastModified <= c.ts
  }

  ghost predicate PhaseInv(files: Directory, h: Holder, ph: Phase)
    requires HasClaim(ph)
  {
    && ClaimInv(files, h, ph.c)
    && (ph.Scavenging? ==>
          && !ph.regression
          && forall x | x in ph.todo :: x < ph.c.epoch && (x in files ==> files[x].lastModified == ph.todo[x]))
    && (ph.Scavenging? && ph.doomed.Some? ==>
          var d := ph.doomed.value; d.epoch < ph.c.epoch && (d.epoch in files ==> files[d.epoch] == d.file))
    && (ph.Checking? ==> !ph.regression && forall x | x in files && x < ph.c.epoch :: x in ph.lower)
    && (ph.Yielding? ==> IsLowest(files, ph.c.epoch))
  }

  ghost predicate ProcInv(clock: int, files: Directory, h: Holder, p: Proc) {
    && (p.held.Some? ==>
          && p.held.value.ts <= clock
          && (p.phase.Idle? || p.phase.Claiming? || p.phase.Putting? || p.phase.Heading? || p.phase.Claimed?
              || p.phase.Returning?)
          && (Live(p.held.value, clock) ==>
                && FileIs(files, h, p.held.value)
                && IsLowest(files, p.held.value.epoch)
                && (p.phase.Heading? || p.phase.Claimed? ==> p.held.value.epoch < p.phase.c.epoch)))
    && (HasClaim(p.phase) ==> p.phase.c.ts <= clock && (Live(p.phase.c, clock) ==> PhaseInv(files, h, p.phase)))
    && (p.phase.Scavenging? && p.phase.doomed.Some? ==>
          var d := p.phase.doomed.value; d.file.ExpiredAt(p.phase.c.ts) || d.file.holder == h)
    && (p.phase.Withdrawing? ==> p.phase.outcome == Failed || p.phase.outcome == Yielded)
    && (p.phase.Releasing? ==> forall x | x in p.phase.read ::
          && p.phase.read[x].holder == h
          && (p.phase.read[x].ExpiredAt(clock) || (x in files && files[x] == p.phase.read[x])))
  }

  ghost predicate Inv(s: State) {
    && (forall x | x in s.files :: s.files[x].lastModified <= s.clock)
    && (forall h | h in s.procs :: ProcInv(s.clock, s.files, h, s.procs[h]))
  }

  /** What a step of `h` may do to the directory under the premises. */
  ghost predicate SafeChange(clock: int, files: Directory, files': Directory, h: Holder) {
    && (forall x | x in files && x in files' :: files'[x] == files[x])
    && (forall x | x in files && x !in files' :: files[x].holder == h || files[x].ExpiredAt(clock))
    && (forall x | x in files' && x !in files :: files'[x].lastModified <= clock && forall y | y in files :: y < x)
  }

  lemma StepIsSafe(s: State, a: Action, pre: Premises)
    requires Inv(s) && Enabled(s, a, pre) && Suffices(pre) && !a.Tick?
    ensures SafeChange(s.clock, s.files, Next(s, a).files, a.h)
  {
    hide NobodyWaits, NoneAbove, IsQuiet;
    assert ProcInv(s.clock, s.files, a.h, s.procs[a.h]);
  }

  lemma FrameOther(clock: int, files: Directory, files': Directory, h: Holder, g: Holder, p: Proc)
    requires SafeChange(clock, files, files', h) && g != h && ProcInv(clock, files, g, p)
    ensures ProcInv(clock, files', g, p)
  {
  }

  predicate ClaimStep(a: Step) {
    a.Start? || a.Reject? || a.List? || a.Put? || a.Head? || a.HeadError? || a.BeginScavenge? || a.Abort? || a.Crash?
  }

  predicate VerifyStep(a: Step) {
    a.VerifyList? || a.CheckRead? || a.CheckDone? || a.YieldRead? || a.Own? || a.Withdraw? || a.Return?
  }

  lemma OwnClaimStep(s: State, a: Action, pre: Premises)
    requires Inv(s) && Enabled(s, a, pre) && Suffices(pre) && a.By? && ClaimStep(a.step)
    ensures ProcInv(s.clock, Next(s, a).files, a.h, Next(s, a).procs[a.h])
  {
    hide NobodyWaits, NoneAbove, IsQuiet;
    assert ProcInv(s.clock, s.files, a.h, s.procs[a.h]);
  }

  lemma OwnVerifyStep(s: State, a: Action, pre: Premises)
    requires Inv(s) && Enabled(s, a, pre) && Suffices(pre) && a.By? && VerifyStep(a.step)
    ensures ProcInv(s.clock, Next(s, a).files, a.h, Next(s, a).procs[a.h])
  {
    hide NobodyWaits, NoneAbove, IsQuiet;
    assert ProcInv(s.clock, s.files, a.h, s.procs[a.h]);
  }

  lemma OwnScavengeStep(s: State, a: Action, pre: Premises)
    requires Inv(s) && Enabled(s, a, pre) && Suffices(pre) && a.By? && (a.step.ScavengeRead? || a.step.ScavengeDelete?)
    ensures ProcInv(s.clock, Next(s, a).files, a.h, Next(s, a).procs[a.h])
  {
    hide NobodyWaits, NoneAbove, IsQuiet;
    assert ProcInv(s.clock, s.files, a.h, s.procs[a.h]);
  }

  predicate ReleaseStep(a: Step) { a.BeginRelease? || a.ReleaseRead? || a.ReleaseDelete? || a.EndRelease? }

  lemma OwnReleaseStep(s: State, a: Action, pre: Premises)
    requires Inv(s) && Enabled(s, a, pre) && Suffices(pre) && a.By? && ReleaseStep(a.step)
    ensures ProcInv(s.clock, Next(s, a).files, a.h, Next(s, a).procs[a.h])
  {
    hide NobodyWaits, NoneAbove, IsQuiet;
    assert ProcInv(s.clock, s.files, a.h, s.procs[a.h]);
  }

  lemma OwnStep(s: State, a: Action, pre: Premises)
    requires Inv(s) && Enabled(s, a, pre) && Suffices(pre) && !a.Tick?
    ensures ProcInv(s.clock, Next(s, a).files, a.h, Next(s, a).procs[a.h])
  {
    hide Inv, ProcInv, Next, Enabled;
    if ClaimStep(a.step) {
      OwnClaimStep(s, a, pre);
    } else if VerifyStep(a.step) {
      OwnVerifyStep(s, a, pre);
    } else if ReleaseStep(a.step) {
      OwnReleaseStep(s, a, pre);
    } else {
      OwnScavengeStep(s, a, pre);
    }
  }

  lemma TickKeeps(s: State, d: nat)
    requires Inv(s)
    ensures Inv(Next(s, Tick(d)))
  {
    var t := Next(s, Tick(d));
    forall h | h in t.procs ensures ProcInv(t.clock, t.files, h, t.procs[h]) {
      assert ProcInv(s.clock, s.files, h, s.procs[h]);
    }
  }

  lemma StepKeeps(s: State, a: Action, pre: Premises)
    requires Inv(s) && Enabled(s, a, pre) && Suffices(pre)
    ensures Inv(Next(s, a))
  {
    if a.Tick? {
      TickKeeps(s, a.d);
    } else {
      var t := Next(s, a);
      StepIsSafe(s, a, pre);
      OwnStep(s, a, pre);
      forall g | g in t.procs && g != a.h ensures ProcInv(t.clock, t.files, g, t.procs[g]) {
        FrameOther(s.clock, s.files, t.files, a.h, g, s.procs[g]);
      }
    }
  }

  lemma {:induction false} RunKeeps(s: State, acts: seq<Action>, t: State, pre: Premises)
    requires Inv(s) && Runs(s, acts, t, pre) && Suffices(pre)
    ensures Inv(t)
    decreases |acts|
  {
    if acts != [] {
      StepKeeps(s, acts[0], pre);
      RunKeeps(Next(s, acts[0]), acts[1..], t, pre);
    }
  }

  // ---------------------------------------------------------------- mutual exclusion

  ghost predicate Holds(s: State, h: Holder) {
    h in s.procs && s.procs[h].held.Some? && Live(s.procs[h].held.value, s.clock)
  }

  ghost predicate Exclusive(s: State) { forall g, h | Holds(s, g) && Holds(s, h) :: g == h }

  /**
    Under the premises at most one holder owns an unexpired lease in any reachable state, and its
    file is present and is the lowest of the directory.
   */
  lemma MutualExclusion(s: State, acts: seq<Action>, t: State, pre: Premises)
    requires Initial(s) && Runs(s, acts, t, pre) && Suffices(pre)
    ensures Exclusive(t)
    ensures forall h | Holds(t, h) ::
              var c := t.procs[h].held.value; FileIs(t.files, h, c) && IsLowest(t.files, c.epoch)
  {
    RunKeeps(s, acts, t, pre);
    forall h | Holds(t, h)
      ensures var c := t.procs[h].held.value; FileIs(t.files, h, c) && IsLowest(t.files, c.epoch)
    {
      assert ProcInv(t.clock, t.files, h, t.procs[h]);
    }
    forall g, h | Holds(t, g) && Holds(t, h) ensures g == h {
      assert t.procs[g].held.value.epoch == t.procs[h].held.value.epoch;
    }
  }

  /** No acquire of the holder has met a backward clock. */
  predicate Forward(p: Proc) {
    p.status != Some(QueuedBackwardClock) && p.phase != Returning(QueuedBackwardClock)
  }

  ghost predicate NoneBackward(s: State) { forall h | h in s.procs :: Forward(s.procs[h]) }

  lemma ForwardStep(clock: int, files: Directory, h: Holder, p: Proc, step: Step)
    requires PhaseAllows(files, h, p, step) && Forward(p) && (step.CheckRead? ==> !p.phase.regression)
    requires step.Withdraw? ==> p.phase.outcome == Failed || p.phase.outcome == Yielded
    ensures Forward(Act(clock, files, h, p, step).1)
  {}

  lemma BackwardStep(s: State, a: Action, pre: Premises)
    requires Inv(s) && Enabled(s, a, pre) && pre.timelyClaim && NoneBackward(s)
    ensures NoneBackward(Next(s, a))
  {
    hide NobodyWaits, NoneAbove, IsQuiet, IsExact, Act, Forward;
    if a.By? {
      var p := s.procs[a.h];
      assert ProcInv(s.clock, s.files, a.h, p) && Forward(p);
      ForwardStep(s.clock, s.files, a.h, p, a.step);
    }
  }

  /** With the premises and holders acting within their claims' leases, no acquire ever reports a backward clock. */
  lemma ClockNeverBackward(s: State, acts: seq<Action>, t: State, pre: Premises)
    requires Initial(s) && Runs(s, acts, t, pre) && Suffices(pre) && pre.timelyClaim
    ensures forall h | h in t.procs :: t.procs[h].status != Some(QueuedBackwardClock)
  {
    NeverBackward(s, acts, t, pre);
  }

  lemma {:induction false} NeverBackward(s: State, acts: seq<Action>, t: State, pre: Premises)
    requires Inv(s) && NoneBackward(s) && Runs(s, acts, t, pre) && Suffices(pre) && pre.timelyClaim
    ensures NoneBackward(t)
    decreases |acts|
  {
    if acts != [] {
      StepKeeps(s, acts[0], pre);
      BackwardStep(s, acts[0], pre);
      NeverBackward(Next(s, acts[0]), acts[1..], t, pre);
    }
  }

  ghost predicate SafeUnder(pre: Premises) {
    forall s, acts, t | Initial(s) && Runs(s, acts, t, pre) :: Exclusive(t)
  }

  ghost predicate Reaches(s: State, t: State, pre: Premises) { exists acts :: Runs(s, acts, t, pre) }

  lemma {:induction false} RunsThen(s: State, acts: seq<Action>, t: State, a: Action, pre: Premises)
    requires Runs(s, acts, t, pre) && Enabled(t, a, pre)
    ensures Runs(s, acts + [a], Next(t, a), pre)
    decreases |acts|
  {
    if acts == [] {
      assert Runs(Next(t, a), ([] + [a])[1..], Next(t, a), pre);
    } else {
      RunsThen(Next(s, acts[0]), acts[1..], t, a, pre);
      assert (acts + [a])[1..] == acts[1..] + [a];
    }
  }

  lemma ReachStep(s: State, t: State, a: Action, pre: Premises)
    requires Reaches(s, t, pre) && Enabled(t, a, pre)
    ensures Reaches(s, Next(t, a), pre)
  {
    var acts :| Runs(s, acts, t, pre);
    RunsThen(s, acts, t, a, pre);
  }

  /** Two holders own unexpired leases and their users rely on them. */
  ghost predicate BothHold(s: State, g: Holder, h: Holder) {
    g != h && Holds(s, g) && Holds(s, h) && s.procs[g].guard == s.procs[g].held && s.procs[h].guard == s.procs[h].held
  }

  ghost predicate Broken(pre: Premises) { exists s, t, g, h :: Initial(s) && Reaches(s, t, pre) && BothHold(t, g, h) }

  lemma Refute(s: State, t: State, g: Holder, h: Holder, pre: Premises)
    requires Initial(s) && Reaches(s, t, pre) && BothHold(t, g, h)
    ensures Broken(pre) && !SafeUnder(pre)
  {
    hide Runs, Initial, Holds;
    var acts :| Runs(s, acts, t, pre);
    assert !Exclusive(t);
  }

  lemma ReachSelf(s: State, pre: Premises)
    ensures Reaches(s, s, pre)
  {
    assert Runs(s, [], s, pre);
  }

  /** Nobody above outranks the holder, so the yield check passes and acquire returns `Owner`. */
  lemma {:induction false} YieldPasses(r: State, s: State, h: Holder, pre: Premises)
    requires Reaches(r, s, pre)
    requires h in s.procs && s.procs[h].phase.Yielding?
    requires Live(s.procs[h].phase.c, s.clock)
    requires forall x | x in s.files :: s.files[x].priority <= s.procs[h].priority
    ensures Reaches(r, s.(procs := s.procs[h := OwnerProc(s.procs[h])]), pre)
    decreases s.procs[h].phase.higher.Keys
  {
    var p := s.procs[h];
    if p.phase.higher.Keys == {} {
      ReachStep(r, s, By(h, Own), pre);
    } else {
      var t := Next(s, By(h, YieldRead));
      assert t.procs[h] == p.(phase := Yielding(p.phase.c, p.phase.higher - {Least(p.phase.higher.Keys)}));
      ReachStep(r, s, By(h, YieldRead), pre);
      YieldPasses(r, t, h, pre);
      assert t.procs[h := OwnerProc(p)] == s.procs[h := OwnerProc(p)];
    }
  }

  /** The state after an undisturbed claim of `n` that ends in `Owner(n)`. */
  function Owned(s: State, h: Holder, n: Epoch): State
    requires h in s.procs
  {
    var p := s.procs[h];
    State(s.clock, s.files[n := EpochFile(h, p.priority, p.duration, s.clock)],
          s.procs[h := OwnerProc(p.(phase := Yielding(Claim(n, s.clock, p.duration), map[])))])
  }

  /** The state in which `h` has moved to `p` and left the directory alone. */
  function Moved(s: State, h: Holder, p: Proc): State { s.(procs := s.procs[h := p]) }

  lemma DoPut(r: State, s: State, h: Holder, n: Epoch, pre: Premises)
    requires Reaches(r, s, pre) && h in s.procs && s.procs[h].phase == Putting(n) && n !in s.files
    requires s.procs[h].duration > 0 && (pre.freshPut ==> forall x | x in s.files :: x < n)
    requires pre.told || pre.unseen ==> NobodyWaits(s)
    ensures var p := s.procs[h];
            Reaches(r, State(s.clock, s.files[n := EpochFile(h, p.priority, p.duration, s.clock)],
                             s.procs[h := p.(phase := Claimed(Claim(n, s.clock, p.duration)))]), pre)
  {
    hide Reaches;
    var p, c := s.procs[h], Claim(n, s.clock, s.procs[h].duration);
    ReachStep(r, s, By(h, Put), pre);
    var s1 := Next(s, By(h, Put));
    assert s1.procs[h].phase == Heading(c) && FileIs(s1.files, h, c);
    ReachStep(r, s1, By(h, Head), pre);
    assert Next(s1, By(h, Head)).procs == s.procs[h := p.(phase := Claimed(c))];
  }

  lemma DoBeginScavenge(r: State, s: State, h: Holder, c: Claim, pre: Premises)
    requires Reaches(r, s, pre) && h in s.procs && s.procs[h].phase == Claimed(c)
    requires pre.timelyClaim ==> Live(c, s.clock)
    ensures Reaches(r, Moved(s, h,
                             s.procs[h].(held := None,
                                         phase := Scavenging(c, Below(s.files, c.epoch), None, false))), pre)
  {
    ReachStep(r, s, By(h, BeginScavenge), pre);
  }

  lemma DoVerifyList(r: State, s: State, h: Holder, c: Claim, pre: Premises)
    requires Reaches(r, s, pre) && h in s.procs && s.procs[h].phase == Scavenging(c, map[], None, false)
    requires (pre.timelyClaim ==> Live(c, s.clock)) && (pre.unseen ==> NobodyWaits(s))
    ensures Reaches(r, Moved(s, h, s.procs[h].(phase := if c.epoch in s.files
                                                       then Checking(c, Below(s.files, c.epoch).Keys,
                                                                     Above(s.files, c.epoch), false)
                                                       else Withdrawing(c, Failed))), pre)
  {
    ReachStep(r, s, By(h, VerifyList), pre);
  }

  lemma DoCheckDone(r: State, s: State, h: Holder, c: Claim, higher: Times, pre: Premises)
    requires Reaches(r, s, pre) && h in s.procs && s.procs[h].phase == Checking(c, {}, higher, false)
    requires pre.timelyClaim ==> Live(c, s.clock)
    ensures Reaches(r, Moved(s, h, s.procs[h].(phase := Yielding(c, higher))), pre)
  {
    ReachStep(r, s, By(h, CheckDone), pre);
  }

  /** A claim with no file below it and nobody of higher priority in the directory ends in `Owner`. */
  lemma ClaimedOwns(r: State, s: State, h: Holder, c: Claim, pre: Premises)
    requires Reaches(r, s, pre) && h in s.procs && s.procs[h].phase == Claimed(c) && Live(c, s.clock)
    requires c.epoch in s.files && Below(s.files, c.epoch) == map[] && (pre.unseen ==> NobodyWaits(s))
    requires forall x | x in s.files :: s.files[x].priority <= s.procs[h].priority
    ensures Reaches(r, Moved(s, h, OwnerProc(s.procs[h].(phase := Yielding(c, map[])))), pre)
  {
    hide Reaches;
    var p := s.procs[h];
    DoBeginScavenge(r, s, h, c, pre);
    var s2 := Moved(s, h, p.(held := None, phase := Scavenging(c, map[], None, false)));
    DoVerifyList(r, s2, h, c, pre);
    assert Below(s2.files, c.epoch).Keys == {};
    var higher := Above(s.files, c.epoch);
    var s3 := Moved(s2, h, p.(held := None, phase := Checking(c, {}, higher, false)));
    DoCheckDone(r, s3, h, c, higher, pre);
    var s4 := Moved(s3, h, p.(held := None, phase := Yielding(c, higher)));
    YieldPasses(r, s4, h, pre);
    assert s4.procs[h := OwnerProc(s4.procs[h])] == s.procs[h := OwnerProc(p.(phase := Yielding(c, map[])))];
  }

  /**
    An undisturbed acquire that found `n` free, with no file below it and nobody of higher priority
    in the directory, ends in `Owner(n)`.
   */
  lemma UndisturbedClaimOwns(r: State, s: State, h: Holder, n: Epoch, pre: Premises)
    requires Reaches(r, s, pre)
    requires h in s.procs && s.procs[h].phase == Putting(n) && s.procs[h].duration > 0
    requires n !in s.files && Below(s.files, n) == map[] && (pre.freshPut ==> s.files == map[])
    requires pre.told || pre.unseen ==> NobodyWaits(s)
    requires forall x | x in s.files :: s.files[x].priority <= s.procs[h].priority
    ensures Reaches(r, Owned(s, h, n), pre)
  {
    hide Reaches;
    var p := s.procs[h];
    var c := Claim(n, s.clock, p.duration);
    DoPut(r, s, h, n, pre);
    var s1 := State(s.clock, s.files[n := EpochFile(h, p.priority, p.duration, s.clock)],
                    s.procs[h := p.(phase := Claimed(c))]);
    assert Below(s1.files, n) == map[];
    ClaimedOwns(r, s1, h, c, pre);
    assert s1.procs[h := OwnerProc(p.(phase := Yielding(c, map[])))] == Owned(s, h, n).procs;
  }

  /** An idle holder starts acquire and lists the directory. */
  lemma Listing(r: State, s: State, h: Holder, n: Epoch, pre: Premises)
    requires Reaches(r, s, pre) && h in s.procs && s.procs[h].phase.Idle?
    requires n == NextEpoch(s.files) && n <= MAX_EPOCH
    ensures Reaches(r, s.(procs := s.procs[h := s.procs[h].(phase := Putting(n), status := None)]), pre)
  {
    hide Reaches;
    ReachStep(r, s, By(h, Start), pre);
    var t := Next(s, By(h, Start));
    ReachStep(r, t, By(h, List), pre);
    assert Next(t, By(h, List)).procs == s.procs[h := s.procs[h].(phase := Putting(n), status := None)];
  }

  /** An idle holder releases the only file of the directory, while its lease runs. */
  lemma ReleaseOnly(r: State, s: State, h: Holder, x: Epoch, pre: Premises)
    requires Reaches(r, s, pre) && h in s.procs && s.procs[h].phase.Idle?
    requires s.files.Keys == {x} && s.files[x].holder == h && !s.files[x].ExpiredAt(s.clock)
    ensures Reaches(r, State(s.clock, map[], s.procs[h := s.procs[h].(held := None, guard := None)]), pre)
  {
    hide Reaches;
    var p := s.procs[h].(held := None, guard := None);
    DoReleaseRead(r, s, h, x, pre);
    var s1 := Moved(s, h, p.(phase := Releasing({}, map[x := s.files[x]])));
    DoReleaseDelete(r, s1, h, x, pre);
    assert s1.files - {x} == map[];
    assert s1.procs[h := p] == s.procs[h := p];
  }

  lemma DoReleaseRead(r: State, s: State, h: Holder, x: Epoch, pre: Premises)
    requires Reaches(r, s, pre) && h in s.procs && s.procs[h].phase.Idle?
    requires s.files.Keys == {x} && s.files[x].holder == h
    ensures Reaches(r, Moved(s, h,
                             s.procs[h].(held := None, guard := None,
                                         phase := Releasing({}, map[x := s.files[x]]))), pre)
  {
    hide Reaches;
    var p := s.procs[h].(held := None, guard := None);
    ReachStep(r, s, By(h, BeginRelease), pre);
    var s1 := Moved(s, h, p.(phase := Releasing({x}, map[])));
    assert Next(s, By(h, BeginRelease)) == s1;
    ReachStep(r, s1, By(h, ReleaseRead(x)), pre);
    assert {x} - {x} == {};
    assert Next(s1, By(h, ReleaseRead(x))).procs == s.procs[h := p.(phase := Releasing({}, map[x := s.files[x]]))];
  }

  lemma DoReleaseDelete(r: State, s: State, h: Holder, x: Epoch, pre: Premises)
    requires Reaches(r, s, pre) && h in s.procs && x in s.files
    requires s.procs[h].phase.Releasing? && s.procs[h].phase.listed == {} && s.procs[h].phase.read.Keys == {x}
    requires pre.exact ==> s.files[x] == s.procs[h].phase.read[x]
    requires pre.timelyRelease ==> !s.procs[h].phase.read[x].ExpiredAt(s.clock)
    ensures Reaches(r, State(s.clock, s.files - {x}, s.procs[h := s.procs[h].(phase := Idle)]), pre)
  {
    hide Reaches;
    ReachStep(r, s, By(h, ReleaseDelete(x, true)), pre);
    var s1 := Next(s, By(h, ReleaseDelete(x, true)));
    assert s1.procs[h].phase.read.Keys == {};
    ReachStep(r, s1, By(h, EndRelease), pre);
    assert s1.procs[h := s1.procs[h].(phase := Idle)] == s.procs[h := s.procs[h].(phase := Idle)];
  }

  /** Holder `h` finds one expired lower file, deletes it, then meets an error and stops. */
  lemma ScavengeOnly(r: State, s: State, h: Holder, x: Epoch, n: Epoch, pre: Premises)
    requires Reaches(r, s, pre) && h in s.procs && s.procs[h].phase == Putting(n) && s.procs[h].duration > 0
    requires s.files.Keys == {x} && x < n && s.files[x].ExpiredAt(s.clock)
    requires pre.told || pre.unseen ==> NobodyWaits(s)
    ensures var p := s.procs[h];
            Reaches(r, State(s.clock, map[n := EpochFile(h, p.priority, p.duration, s.clock)],
                             s.procs[h := p.(held := None, phase := Idle, status := Some(StoreError))]), pre)
  {
    hide Reaches;
    var p := s.procs[h];
    var c := Claim(n, s.clock, p.duration);
    DoPut(r, s, h, n, pre);
    var s1 := State(s.clock, s.files[n := EpochFile(h, p.priority, p.duration, s.clock)],
                    s.procs[h := p.(phase := Claimed(c))]);
    var todo := map[x := s.files[x].lastModified];
    assert Below(s1.files, n) == todo;
    DoBeginScavenge(r, s1, h, c, pre);
    var s2 := Moved(s1, h, p.(held := None, phase := Scavenging(c, todo, None, false)));
    DeleteThenAbort(r, s2, h, x, pre);
    assert s2.files - {x} == map[n := EpochFile(h, p.priority, p.duration, s.clock)];
    assert s2.procs[h := s2.procs[h].(phase := Idle, status := Some(StoreError))] ==
           s.procs[h := p.(held := None, phase := Idle, status := Some(StoreError))];
  }

  lemma DeleteThenAbort(r: State, s: State, h: Holder, x: Epoch, pre: Premises)
    requires Reaches(r, s, pre) && h in s.procs && x in s.files
    requires var ph := s.procs[h].phase;
             && ph.Scavenging? && ph.todo == map[x := s.files[x].lastModified] && ph.doomed.None?
             && Live(ph.c, s.clock) && s.files[x].ExpiredAt(ph.c.ts) && ph.c.ts <= s.clock
    ensures Reaches(r, State(s.clock, s.files - {x},
                             s.procs[h := s.procs[h].(phase := Idle, status := Some(StoreError))]), pre)
  {
    hide Reaches;
    var p := s.procs[h];
    assert p.phase.todo.Keys == {x} && p.phase.todo - {x} == map[];
    ReachStep(r, s, By(h, ScavengeRead), pre);
    assert Least(p.phase.todo.Keys) == x;
    var s1 := Moved(s, h, p.(phase := Scavenging(p.phase.c, map[], Some(Doomed(x, s.files[x])), p.phase.regression)));
    assert s.files[x].(lastModified := p.phase.todo[x]) == s.files[x];
    assert Next(s, By(h, ScavengeRead)) == s1;
    DoomedThenAbort(r, s1, h, x, pre);
    assert s1.procs[h := p.(phase := Idle, status := Some(StoreError))] ==
        s.procs[h := p.(phase := Idle, status := Some(StoreError))];
  }

  lemma DoomedThenAbort(r: State, s: State, h: Holder, x: Epoch, pre: Premises)
    requires Reaches(r, s, pre) && h in s.procs && x in s.files && s.files[x].ExpiredAt(s.clock)
    requires var ph := s.procs[h].phase;
             ph.Scavenging? && ph.doomed == Some(Doomed(x, s.files[x])) && Live(ph.c, s.clock)
    ensures Reaches(r, State(s.clock, s.files - {x},
                             s.procs[h := s.procs[h].(phase := Idle, status := Some(StoreError))]), pre)
  {
    hide Reaches;
    var p := s.procs[h];
    ReachStep(r, s, By(h, ScavengeDelete(true)), pre);
    var s1 := Next(s, By(h, ScavengeDelete(true)));
    ReachStep(r, s1, By(h, Abort), pre);
    assert Next(s1, By(h, Abort)).procs == s.procs[h := p.(phase := Idle, status := Some(StoreError))];
  }

  // ---------------------------------------------------------------- the premises are needed

  const P: Proc := Proc(0, 100, None, None, Idle, None)

  /** Holder 0 lists while holder 2's file 1 is there, 2 releases, holder 1 lists the empty directory. */
  lemma StaleListing(pre: Premises)
    ensures var s := State(0, map[1 := EpochFile(2, 0, 100, 0)], map[0 := P, 1 := P, 2 := P]);
            Reaches(s, State(0, map[], map[0 := P.(phase := Putting(2)), 1 := P.(phase := Putting(0)), 2 := P]), pre)
  {
    hide Reaches;
    var s := State(0, map[1 := EpochFile(2, 0, 100, 0)], map[0 := P, 1 := P, 2 := P]);
    ReachSelf(s, pre);
    assert s.files.Keys == {1};
    Listing(s, s, 0, 2, pre);
    var s1 := s.(procs := map[0 := P.(phase := Putting(2)), 1 := P, 2 := P]);
    assert s1.procs == s.procs[0 := s.procs[0].(phase := Putting(2), status := None)];
    ReleaseOnly(s, s1, 2, 1, pre);
    var s2 := State(0, map[], s1.procs);
    assert s1.procs[2 := P.(held := None)] == s1.procs;
    Listing(s, s2, 1, 0, pre);
    assert s2.procs[1 := P.(phase := Putting(0), status := None)] ==
           map[0 := P.(phase := Putting(2)), 1 := P.(phase := Putting(0)), 2 := P];
  }

  /** A put of an epoch below a present one gives two owners. */
  lemma StalePutBreaks(pre: Premises)
    requires !pre.freshPut
    ensures Broken(pre) && !SafeUnder(pre)
  {
    hide Reaches;
    var s0 := State(0, map[1 := EpochFile(2, 0, 100, 0)], map[0 := P, 1 := P, 2 := P]);
    var s1 := State(0, map[], map[0 := P.(phase := Putting(2)), 1 := P.(phase := Putting(0)), 2 := P]);
    StaleListing(pre);
    UndisturbedClaimOwns(s0, s1, 0, 2, pre);
    var s2 := Owned(s1, 0, 2);
    UndisturbedClaimOwns(s0, s2, 1, 0, pre);
    var s3 := Owned(s2, 1, 0);
    assert BothHold(s3, 0, 1);
    Refute(s0, s3, 0, 1, pre);
  }

  /** Holder 1 scavenges the expired file 0, meets an error, and releases its own file. */
  lemma ClearAway(r: State, s: State, pre: Premises) returns (t: State)
    requires Reaches(r, s, pre) && s.files.Keys == {0} && s.files[0].ExpiredAt(s.clock) && 1 in s.procs
    requires s.procs[1] == P
    requires pre.told || pre.unseen ==> NobodyWaits(s)
    ensures t == State(s.clock, map[], s.procs[1 := P.(status := Some(StoreError))]) && Reaches(r, t, pre)
  {
    hide Reaches;
    var q := P.(status := Some(StoreError));
    Listing(r, s, 1, 1, pre);
    var s1 := s.(procs := s.procs[1 := P.(phase := Putting(1))]);
    ScavengeOnly(r, s1, 1, 0, 1, pre);
    var s2 := State(s.clock, map[1 := EpochFile(1, 0, 100, s.clock)], s.procs[1 := q]);
    assert s1.procs[1 := q] == s2.procs;
    ReleaseOnly(r, s2, 1, 1, pre);
    t := State(s.clock, map[], s.procs[1 := q]);
    assert s2.procs[1 := q] == t.procs;
  }

  /** Holder 2 finds the empty directory and owns epoch 0; its file is deleted by another; holder 1 owns epoch 0 too. */
  lemma TwoOwners(r: State, s: State, t: State, pre: Premises)
    requires Initial(r) && Reaches(r, t, pre) && 2 in s.procs && 1 in s.procs && s.files == map[]
    requires s.procs[1].phase.Idle? && s.procs[1].duration > 0
    requires s.procs[2].phase == Putting(0) && s.procs[2].duration > 0
    requires t.clock == s.clock && t.files == map[] && 1 in t.procs && 2 in t.procs
    requires t.procs[1] == s.procs[1] && t.procs[2] == Owned(s, 2, 0).procs[2]
    requires pre.told || pre.unseen ==> NobodyWaits(t)
    ensures Broken(pre) && !SafeUnder(pre)
  {
    hide Reaches;
    Listing(r, t, 1, 0, pre);
    var s1 := t.(procs := t.procs[1 := t.procs[1].(phase := Putting(0), status := None)]);
    UndisturbedClaimOwns(r, s1, 1, 0, pre);
    var s2 := Owned(s1, 1, 0);
    assert BothHold(s2, 1, 2);
    Refute(r, s2, 1, 2, pre);
  }

  const BRIEF: Proc := Proc(0, 1, None, None, Idle, None)
  const FROZEN: Claim := Claim(0, 0, 1)

  /** Holder 0 claims epoch 0 for one second and freezes. */
  lemma FrozenClaim(pre: Premises)
    ensures var s := State(0, map[], map[0 := BRIEF, 1 := P, 2 := P]);
            Reaches(s, State(10, map[0 := EpochFile(0, 0, 1, 0)], s.procs[0 := BRIEF.(phase := Claimed(FROZEN))]), pre)
  {
    var s := State(0, map[], map[0 := BRIEF, 1 := P, 2 := P]);
    ReachSelf(s, pre);
    Listing(s, s, 0, 0, pre);
    var s1 := s.(procs := s.procs[0 := BRIEF.(phase := Putting(0))]);
    DoPut(s, s1, 0, 0, pre);
    var s2 := State(0, map[0 := EpochFile(0, 0, 1, 0)], s.procs[0 := BRIEF.(phase := Claimed(FROZEN))]);
    assert s1.procs[0 := BRIEF.(phase := Claimed(FROZEN))] == s2.procs;
    ReachStep(s, s2, Tick(10), pre);
  }

  /** The frozen holder wakes up, finds its file gone, and goes on to delete its path. */
  lemma FrozenDelete(r: State, s: State, pre: Premises)
    requires Reaches(r, s, pre) && s.files == map[] && !pre.timelyClaim
    requires 0 in s.procs && s.procs[0].phase == Claimed(FROZEN) && (pre.unseen ==> NobodyWaits(s))
    ensures Reaches(r, s.(procs := s.procs[0 := s.procs[0].(held := None, phase := Withdrawing(FROZEN, Failed))]), pre)
  {
    hide Reaches;
    var p := s.procs[0];
    DoBeginScavenge(r, s, 0, FROZEN, pre);
    assert Below(s.files, 0) == map[];
    var s1 := Moved(s, 0, p.(held := None, phase := Scavenging(FROZEN, map[], None, false)));
    DoVerifyList(r, s1, 0, FROZEN, pre);
    assert s1.procs[0 := p.(held := None, phase := Withdrawing(FROZEN, Failed))] ==
           s.procs[0 := p.(held := None, phase := Withdrawing(FROZEN, Failed))];
  }

  lemma DoWithdraw(r: State, s: State, h: Holder, c: Claim, outcome: Status, pre: Premises)
    requires Reaches(r, s, pre) && h in s.procs && s.procs[h].phase == Withdrawing(c, outcome)
    requires !pre.exact && !pre.timelyClaim && s.procs[h].guard.None?
    ensures Reaches(r, State(s.clock, s.files - {c.epoch},
                             s.procs[h := s.procs[h].(phase := Idle, status := Some(outcome))]), pre)
  {
    hide Reaches;
    ReachStep(r, s, By(h, Withdraw(true)), pre);
    var s1 := Next(s, By(h, Withdraw(true)));
    ReachStep(r, s1, By(h, Return), pre);
    assert Next(s1, By(h, Return)).procs == s.procs[h := s.procs[h].(phase := Idle, status := Some(outcome))];
  }

  /** A holder that acts on an expired claim can delete the file of a live owner. */
  lemma FrozenHolderBreaks(pre: Premises)
    requires !pre.exact && !pre.timelyClaim
    ensures Broken(pre) && !SafeUnder(pre)
  {
    hide Reaches;
    var r := State(0, map[], map[0 := BRIEF, 1 := P, 2 := P]);
    FrozenClaim(pre);
    var s := State(10, map[0 := EpochFile(0, 0, 1, 0)], r.procs[0 := BRIEF.(phase := Claimed(FROZEN))]);
    s := ClearAway(r, s, pre);
    FrozenDelete(r, s, pre);
    s := s.(procs := s.procs[0 := BRIEF.(phase := Withdrawing(FROZEN, Failed))]);
    Listing(r, s, 2, 0, pre);
    s := s.(procs := s.procs[2 := P.(phase := Putting(0))]);
    UndisturbedClaimOwns(r, s, 2, 0, pre);
    var t := Owned(s, 2, 0);
    DoWithdraw(r, t, 0, FROZEN, Failed, pre);
    assert t.files - {0} == map[];
    TwoOwners(r, s, State(10, map[], t.procs[0 := BRIEF.(status := Some(Failed))]), pre);
  }

  /** A release that reads its expired file and stalls can delete the file of a live owner later. */
  lemma StalledReleaseBreaks(pre: Premises)
    requires !pre.exact && !pre.timelyRelease
    ensures Broken(pre) && !SafeUnder(pre)
  {
    hide Reaches;
    var f := EpochFile(0, 0, 1, 0);
    var r := State(10, map[0 := f], map[0 := P, 1 := P, 2 := P]);
    ReachSelf(r, pre);
    DoReleaseRead(r, r, 0, 0, pre);
    var s := Moved(r, 0, P.(phase := Releasing({}, map[0 := f])));
    s := ClearAway(r, s, pre);
    Listing(r, s, 2, 0, pre);
    s := s.(procs := s.procs[2 := P.(phase := Putting(0))]);
    UndisturbedClaimOwns(r, s, 2, 0, pre);
    var t := Owned(s, 2, 0);
    DoReleaseDelete(r, t, 0, 0, pre);
    assert t.files - {0} == map[];
    TwoOwners(r, s, State(10, map[], t.procs[0 := P]), pre);
  }

  lemma BreaksWithout(pre: Premises)
    requires !Suffices(pre)
    ensures Broken(pre) && !SafeUnder(pre)
  {
    hide Broken, SafeUnder;
    if !pre.freshPut {
      StalePutBreaks(pre);
    } else if !pre.timelyClaim {
      FrozenHolderBreaks(pre);
    } else {
      StalledReleaseBreaks(pre);
    }
  }

  /**
    Exclusion holds in all runs exactly when puts are fresh and holders either find their own file
    where they left or read it, or act on claims and releases within the lease.
   */
  lemma ExclusionExactly(pre: Premises)
    ensures SafeUnder(pre) <==> Suffices(pre)
  {
    hide Runs, Broken;
    if Suffices(pre) {
      forall s, acts, t | Initial(s) && Runs(s, acts, t, pre) ensures Exclusive(t) {
        MutualExclusion(s, acts, t, pre);
      }
    } else {
      BreaksWithout(pre);
    }
  }
}
