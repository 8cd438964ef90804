/**
  What one compaction job knows when it judges a row, and which rows it therefore leaves: exactly, over
  every run, and that a collection does not lose the way to a block that is in use.
 */
module FolderCollect {
  import opened Prelude
  import opened Files
  import opened VersionVectors
  import opened StoreKeys
  import opened FolderModel
  import opened FolderRuns
  import FolderContent
  import FolderGc

  // ---------------------------------------------------------------- what a job is told

  /** What writers recorded. */
  function Recorded(acts: seq<Action>): set<(Hash, nat)> {
    set i | 0 <= i < |acts| && acts[i].Learn? :: (acts[i].hash, acts[i].seqno)
  }

  function RecordedHashes(acts: seq<Action>): set<Hash> { set p | p in Recorded(acts) :: p.0 }

  function RecordedSeqs(acts: seq<Action>): set<nat> { set p | p in Recorded(acts) :: p.1 }

  /** What the job's filters take for live by accident. */
  function NoiseHashes(acts: seq<Action>, j: nat): set<Hash> {
    set i, h | 0 <= i < |acts| && acts[i].Noise? && acts[i].job == j && h in acts[i].hashes :: h
  }

  function NoiseSeqs(acts: seq<Action>, j: nat): set<nat> {
    set i, q | 0 <= i < |acts| && acts[i].Noise? && acts[i].job == j && q in acts[i].seqs :: q
  }

  function HashesTold(acts: seq<Action>, j: nat): set<Hash> { RecordedHashes(acts) + NoiseHashes(acts, j) }

  function SeqsTold(acts: seq<Action>, j: nat): set<nat> { RecordedSeqs(acts) + NoiseSeqs(acts, j) }

  /** The same by recursion on the run. */
  lemma ToldStep(acts: seq<Action>, j: nat)
    requires acts != []
    ensures var a := acts[0];
            && HashesTold(acts, j) == HashesTold(acts[1..], j) + (if a.Learn? then {a.hash} else {})
                                      + (if a.Noise? && a.job == j then a.hashes else {})
            && SeqsTold(acts, j) == SeqsTold(acts[1..], j) + (if a.Learn? then {a.seqno} else {})
                                    + (if a.Noise? && a.job == j then a.seqs else {})
  {
    RecordedStep(acts);
    NoiseStep(acts, j);
  }

  lemma RecordedStep(acts: seq<Action>)
    requires acts != []
    ensures var a := acts[0];
            && RecordedHashes(acts) == RecordedHashes(acts[1..]) + (if a.Learn? then {a.hash} else {})
            && RecordedSeqs(acts) == RecordedSeqs(acts[1..]) + (if a.Learn? then {a.seqno} else {})
  {
    var a, rest := acts[0], acts[1..];
    assert Recorded(acts) == Recorded(rest) + (if a.Learn? then {(a.hash, a.seqno)} else {}) by {
      forall p | p in Recorded(rest) ensures p in Recorded(acts) {
        var i :| 0 <= i < |rest| && rest[i].Learn? && p == (rest[i].hash, rest[i].seqno);
        assert acts[i + 1] == rest[i];
      }
      forall p | p in Recorded(acts) ensures p in Recorded(rest) || (a.Learn? && p == (a.hash, a.seqno)) {
        var i :| 0 <= i < |acts| && acts[i].Learn? && p == (acts[i].hash, acts[i].seqno);
        if i > 0 { assert rest[i - 1] == acts[i]; }
      }
    }
    if a.Learn? { assert (a.hash, a.seqno) in Recorded(acts); }
  }

  lemma NoiseStep(acts: seq<Action>, j: nat)
    requires acts != []
    ensures var a := acts[0];
            && NoiseHashes(acts, j) == NoiseHashes(acts[1..], j) + (if a.Noise? && a.job == j then a.hashes else {})
            && NoiseSeqs(acts, j) == NoiseSeqs(acts[1..], j) + (if a.Noise? && a.job == j then a.seqs else {})
  {
    var rest := acts[1..];
    forall h | h in NoiseHashes(rest, j) ensures h in NoiseHashes(acts, j) {
      var i :| 0 <= i < |rest| && rest[i].Noise? && rest[i].job == j && h in rest[i].hashes;
      assert acts[i + 1] == rest[i];
    }
    forall q | q in NoiseSeqs(rest, j) ensures q in NoiseSeqs(acts, j) {
      var i :| 0 <= i < |rest| && rest[i].Noise? && rest[i].job == j && q in rest[i].seqs;
      assert acts[i + 1] == rest[i];
    }
    forall h | h in NoiseHashes(acts, j)
      ensures h in NoiseHashes(rest, j) || (acts[0].Noise? && acts[0].job == j && h in acts[0].hashes)
    {
      var i :| 0 <= i < |acts| && acts[i].Noise? && acts[i].job == j && h in acts[i].hashes;
      if i > 0 { assert rest[i - 1] == acts[i]; }
    }
    forall q | q in NoiseSeqs(acts, j)
      ensures q in NoiseSeqs(rest, j) || (acts[0].Noise? && acts[0].job == j && q in acts[0].seqs)
    {
      var i :| 0 <= i < |acts| && acts[i].Noise? && acts[i].job == j && q in acts[i].seqs;
      if i > 0 { assert rest[i - 1] == acts[i]; }
    }
  }

  // ---------------------------------------------------------------- jobs over runs

  function Rank(stage: Stage): nat { if stage.Registered? then 0 else if stage.Snapped? then 1 else 2 }

  /** A job that is there after a step, and is not new, was there before; its stage only advances. */
  lemma JobBefore(s: State, a: Action, j: nat)
    requires Enabled(s, a, CODE) && j < s.nextJob && j in Next(s, a).jobs
    ensures j in s.jobs && j < Next(s, a).nextJob && Rank(s.jobs[j].stage) <= Rank(Next(s, a).jobs[j].stage)
    ensures Next(s, a).epoch == s.epoch
  {
    hide Wrote, CanWrite;
    if Writes(a) { JobsUnwritten(s, a); } else { JobMoved(s, a, j); }
  }

  lemma JobsUnwritten(s: State, a: Action)
    requires Shaped(s) && Writes(a) && CanWrite(s, a, CODE)
    ensures Wrote(s, a).jobs == s.jobs && Wrote(s, a).nextJob == s.nextJob && Wrote(s, a).epoch == s.epoch
  {
    hide CanMove, Moved, PutFile, CommitCopy, StageFile, CompleteFile, PromoteStaged, StoreInline, ShareBlock, NewBlock,
         Separated, CanLink, FolderModel.GcInbox;
  }

  /** Steps that are about jobs. */
  predicate AboutJobs(a: Action) {
    a.Learn? || a.Register? || a.Snapshot? || a.Scan? || a.Noise? || a.End? || a.Crash?
  }

  lemma JobsUntouched(s: State, a: Action)
    requires Shaped(s) && !Writes(a) && !AboutJobs(a) && CanMove(s, a, CODE)
    ensures Moved(s, a).jobs == s.jobs && Moved(s, a).nextJob == s.nextJob && Moved(s, a).epoch == s.epoch
  {
    hide CanWrite, Wrote, CopyBlocks, MetadataOnly, BlockSafe, Refers, JudgedInTime, PruneAll, LoseAll, Allocate;
  }

  lemma JobsMoved(s: State, a: Action, j: nat)
    requires Shaped(s) && !Writes(a) && AboutJobs(a) && CanMove(s, a, CODE) && j < s.nextJob && j in Moved(s, a).jobs
    ensures j in s.jobs && j < Moved(s, a).nextJob && Moved(s, a).epoch == s.epoch
    ensures var job, now := s.jobs[j], Moved(s, a).jobs[j];
            && Rank(job.stage) <= Rank(now.stage) && (Rank(job.stage) == Rank(now.stage) ==> now.stage == job.stage)
            && (Rank(job.stage) == Rank(now.stage) ==>
                  && now.hashes == job.hashes + (if a.Learn? then {a.hash} else {})
                                   + (if a.Noise? && a.job == j then a.hashes else {})
                  && now.seqs == job.seqs + (if a.Learn? then {a.seqno} else {})
                                 + (if a.Noise? && a.job == j then a.seqs else {}))
  {
    hide CanWrite, Wrote, CopyBlocks, MetadataOnly, BlockSafe, Refers, FileSeqs, LiveSeqs, ScanSeqs, ScanHashes,
         Visible, JudgedInTime, PeerFloor, PruneAll, LoseAll, StagedSeqs;
    match a
    case Learn(_, _) =>
    case Register =>
    case Snapshot(_) =>
    case Scan(_) =>
    case Noise(_, _, _) =>
    case End(_) =>
  }

  lemma JobMoved(s: State, a: Action, j: nat)
    requires Shaped(s) && !Writes(a) && CanMove(s, a, CODE) && j < s.nextJob && j in Moved(s, a).jobs
    ensures j in s.jobs && j < Moved(s, a).nextJob && Moved(s, a).epoch == s.epoch
    ensures var job, now := s.jobs[j], Moved(s, a).jobs[j];
            && Rank(job.stage) <= Rank(now.stage) && (Rank(job.stage) == Rank(now.stage) ==> now.stage == job.stage)
            && (Rank(job.stage) == Rank(now.stage) ==>
                  && now.hashes == job.hashes + (if a.Learn? then {a.hash} else {})
                                   + (if a.Noise? && a.job == j then a.hashes else {})
                  && now.seqs == job.seqs + (if a.Learn? then {a.seqno} else {})
                                 + (if a.Noise? && a.job == j then a.seqs else {}))
  {
    hide CanWrite, Wrote, CanMove, Moved;
    if AboutJobs(a) { JobsMoved(s, a, j); } else { JobsUntouched(s, a); }
  }

  /** While its stage stays, a job learns exactly what it is told. */
  lemma {:induction false} JobLearns(s: State, acts: seq<Action>, t: State, j: nat)
    requires Runs(s, acts, t, CODE) && j < s.nextJob && j in t.jobs
    ensures j in s.jobs && j < t.nextJob && t.epoch == s.epoch && Rank(s.jobs[j].stage) <= Rank(t.jobs[j].stage)
    ensures Rank(s.jobs[j].stage) == Rank(t.jobs[j].stage) ==>
              && t.jobs[j].stage == s.jobs[j].stage
              && t.jobs[j].hashes == s.jobs[j].hashes + HashesTold(acts, j)
              && t.jobs[j].seqs == s.jobs[j].seqs + SeqsTold(acts, j)
    decreases |acts|
  {
    hide Enabled, Next, HashesTold, SeqsTold;
    if acts == [] {
      NothingTold(j);
    } else {
      var m := Next(s, acts[0]);
      GrowsOnce(s, acts[0]);
      JobLearns(m, acts[1..], t, j);
      JobBefore(s, acts[0], j);
      ToldStep(acts, j);
      if Rank(s.jobs[j].stage) == Rank(t.jobs[j].stage) { JobStep(s, acts[0], j); }
    }
  }

  lemma NothingTold(j: nat)
    ensures HashesTold([], j) == {} && SeqsTold([], j) == {}
  {
    assert Recorded([]) == {} && NoiseHashes([], j) == {} && NoiseSeqs([], j) == {};
  }

  lemma GrowsOnce(s: State, a: Action)
    requires Enabled(s, a, CODE)
    ensures s.nextJob <= Next(s, a).nextJob
  {
    hide Wrote, CanWrite;
    if Writes(a) { JobsUnwritten(s, a); }
  }

  lemma JobStep(s: State, a: Action, j: nat)
    requires Enabled(s, a, CODE) && j < s.nextJob && j in Next(s, a).jobs && j in s.jobs
    requires Rank(s.jobs[j].stage) == Rank(Next(s, a).jobs[j].stage)
    ensures var job, now := s.jobs[j], Next(s, a).jobs[j];
            && now.stage == job.stage
            && now.hashes == job.hashes + (if a.Learn? then {a.hash} else {})
                             + (if a.Noise? && a.job == j then a.hashes else {})
            && now.seqs == job.seqs + (if a.Learn? then {a.seqno} else {})
                           + (if a.Noise? && a.job == j then a.seqs else {})
  {
    hide Wrote, CanWrite, Moved, CanMove;
    if Writes(a) { JobsUnwritten(s, a); } else { JobMoved(s, a, j); }
  }

  // ---------------------------------------------------------------- which rows a job leaves

  /** A job registers in `s`, takes its snapshot in `m`, has scanned it in `n`, and judges in `t`. */
  ghost predicate JobRun(j: nat, s: State, a: seq<Action>, m: State, b: seq<Action>, n: State, c: seq<Action>,
                         t: State)
  {
    && Shaped(s) && j == s.nextJob && Runs(Next(s, Register), a, m, CODE)
    && Enabled(m, Snapshot(j), CODE) && Runs(Next(m, Snapshot(j)), b, n, CODE)
    && Enabled(n, Scan(j), CODE) && Runs(Next(n, Scan(j)), c, t, CODE) && j in t.jobs
  }

  lemma JobStarts(s: State)
    requires Shaped(s)
    ensures Enabled(s, Register, CODE)
    ensures var t := Next(s, Register);
            t.jobs == s.jobs[s.nextJob := Job({}, {}, Registered)] && t.nextJob == s.nextJob + 1
  {}

  lemma JobSnaps(s: State, j: nat)
    requires Enabled(s, Snapshot(j), CODE)
    ensures var t := Next(s, Snapshot(j));
            && j in s.jobs && s.jobs[j].stage.Registered? && t.epoch == s.epoch && t.nextJob == s.nextJob
            && t.jobs == s.jobs[j := s.jobs[j].(stage := Snapped(s.flushed, Now(s)))]
  {
    hide LiveSeqs, FileSeqs, Visible;
  }

  lemma JobScans(s: State, j: nat)
    requires Enabled(s, Scan(j), CODE)
    ensures j in s.jobs && s.jobs[j].stage.Snapped?
    ensures var t, snap := Next(s, Scan(j)), s.jobs[j].stage.snap;
            && t.epoch == s.epoch && t.nextJob == s.nextJob && j in t.jobs
            && t.jobs[j] == Job(s.jobs[j].hashes + ScanHashes(snap, s.epoch), s.jobs[j].seqs + ScanSeqs(snap, s.epoch),
                                Ready(s.jobs[j].stage.at, PeerFloor(Now(s).md)))
  {
    hide ScanHashes, ScanSeqs, PeerFloor;
  }

  /** What the job knows when it judges: what its scan found, what was recorded since it registered, and noise. */
  lemma JobKnows(j: nat, s: State, a: seq<Action>, m: State, b: seq<Action>, n: State, c: seq<Action>, t: State)
    requires JobRun(j, s, a, m, b, n, c, t)
    ensures t.jobs[j].stage == Ready(m.flushed, PeerFloor(Now(n).md)) && t.epoch == m.epoch
    ensures t.jobs[j].hashes ==
            ScanHashes(Now(m), m.epoch) + HashesTold(a, j) + HashesTold(b, j) + HashesTold(c, j)
    ensures t.jobs[j].seqs == ScanSeqs(Now(m), m.epoch) + SeqsTold(a, j) + SeqsTold(b, j) + SeqsTold(c, j)
  {
    hide Runs, Enabled, Next, HashesTold, SeqsTold, ScanHashes, ScanSeqs, PeerFloor;
    JobStarts(s);
    JobSnaps(m, j);
    JobScans(n, j);
    JobLearns(Next(s, Register), a, m, j);
    JobLearns(Next(m, Snapshot(j)), b, n, j);
    JobLearns(Next(n, Scan(j)), c, t, j);
  }

  predicate HasRow(db: Db, row: Row) {
    match row
    case DataRow(q) => q in db.bd
    case PointerRow(d, h) => (d, h) in db.mb
    case ReverseRow(h, n) => (h, n) in db.mr
    case InboxRow(e, n) => (e, n) in db.mi
    case SeqRow(q) => q in db.ms
    case FileRow(n) => n in db.mn
  }

  /** Judging a row takes away that row or nothing. */
  lemma DropOne(s: State, j: nat, row: Row, k: nat, other: Row)
    requires Enabled(s, Drop(j, row), CODE) && k < |s.history| && other != row
    ensures |Next(s, Drop(j, row)).history| == |s.history|
    ensures HasRow(Next(s, Drop(j, row)).history[k], other) <==> HasRow(s.history[k], other)
  {
    hide Enabled, Next, Prunes;
    DropIs(s, j, row);
  }

  /**
    The rows a job leaves, exactly: data whose number, and pointers and references whose hash, its scan found
    or somebody told it; staged files of its epoch and later ones; sequence rows and deleted files from the
    peer floor on.
   */
  lemma CollectedExactly(j: nat, s: State, a: seq<Action>, m: State, b: seq<Action>, n: State, c: seq<Action>,
                         t: State, row: Row, k: nat)
    requires JobRun(j, s, a, m, b, n, c, t) && Enabled(t, Drop(j, row), CODE)
    requires k < |t.history| && HasRow(t.history[k], row)
    ensures var after, floor := Next(t, Drop(j, row)).history, PeerFloor(Now(n).md);
            && |after| == |t.history|
            && (HasRow(after[k], row) <==>
                match row
                case DataRow(q) =>
                  q in ScanSeqs(Now(m), m.epoch) || q in SeqsTold(a, j) || q in SeqsTold(b, j) || q in SeqsTold(c, j)
                case PointerRow(_, h) =>
                  || h in ScanHashes(Now(m), m.epoch)
                  || h in HashesTold(a, j) || h in HashesTold(b, j) || h in HashesTold(c, j)
                case ReverseRow(h, _) =>
                  || h in ScanHashes(Now(m), m.epoch)
                  || h in HashesTold(a, j) || h in HashesTold(b, j) || h in HashesTold(c, j)
                case InboxRow(e, _) => e >= m.epoch
                case SeqRow(q) => floor.None? || q >= floor.value
                case FileRow(name) =>
                  || !t.history[k].mn[name].deleted
                  || floor.None? || t.history[k].mn[name].sequence >= floor.value)
  {
    hide JobRun, Enabled, Next, HashesTold, SeqsTold, ScanHashes, ScanSeqs, PeerFloor, Pruned, HasRow;
    JobKnows(j, s, a, m, b, n, c, t);
    DropIs(t, j, row);
    LeftIff(FilterOf(t, j), t.history[k], row);
  }

  lemma DropIs(s: State, j: nat, row: Row)
    requires Enabled(s, Drop(j, row), CODE)
    ensures j in s.jobs && s.jobs[j].stage.Ready?
    ensures Next(s, Drop(j, row)).history == PruneAll(FilterOf(s, j), s.history, row)
  {}

  lemma LeftIff(f: Filter, db: Db, row: Row)
    requires HasRow(db, row)
    ensures HasRow(Pruned(f, db, row), row) <==>
            match row
            case DataRow(q) => q in f.seqs
            case PointerRow(_, h) => h in f.hashes
            case ReverseRow(h, _) => h in f.hashes
            case InboxRow(e, _) => e >= f.epoch
            case SeqRow(q) => f.floor.None? || q >= f.floor.value
            case FileRow(n) => !db.mn[n].deleted || f.floor.None? || db.mn[n].sequence >= f.floor.value
  {}

  // ---------------------------------------------------------------- what is found stays found

  /** The job knows the hash, or its scan will find it. */
  predicate KnowsHash(s: State, j: nat, h: Hash)
    requires j in s.jobs
  {
    h in s.jobs[j].hashes || (s.jobs[j].stage.Snapped? && h in ScanHashes(s.jobs[j].stage.snap, s.epoch))
  }

  /** The block is found in `dir` under `x`, and the job, while it is there, knows it. */
  predicate Found(s: State, j: nat, h: Hash, dir: Name, x: nat) {
    && Shaped(s) && Holds(Now(s), h, dir, x) && x !in s.doomed && j < s.nextJob
    && (j in s.jobs ==> !s.jobs[j].stage.Registered? && KnowsHash(s, j, h) && x in Known(s, j))
  }

  /** The row is one of those that lead to a block of hash `h`, or data. */
  predicate Leads(row: Row, h: Hash) {
    row.DataRow? || (row.PointerRow? && row.hash == h) || (row.ReverseRow? && row.hash == h)
  }

  /** No crash, and no other job judges rows that lead to `h`. */
  predicate Minds(a: Action, j: nat, h: Hash) {
    !a.Crash? && (a.Drop? && a.job != j ==> !Leads(a.row, h)) && (a.Decide? ==> a.job == j)
  }

  /** A writer's batch that leaves the way to the block alone, or leads it to a newer number. */
  lemma FoundWrote(s: State, t: State, j: nat, h: Hash, dir: Name, x: nat, y: nat)
    requires Found(s, j, h, dir, x) && Shaped(t) && Holds(Now(t), h, dir, y)
    requires t.jobs == s.jobs && t.nextJob == s.nextJob && t.epoch == s.epoch && t.doomed == s.doomed
    requires s.pending <= t.pending && (y == x || (y !in s.doomed && y in PendingSeqs(t)))
    ensures Found(t, j, h, dir, y)
  {
    hide Holds, ScanHashes, ScanSeqs;
    assert PendingSeqs(s) <= PendingSeqs(t);
  }

  lemma Way(db: Db, t: Db, h: Hash, dir: Name, x: nat, y: nat)
    requires Holds(db, h, dir, x) && db.mr <= t.mr && (dir, h) in t.mb && t.mb[(dir, h)] == y && y in t.bd
    ensures Holds(t, h, dir, y)
  {
    var p :| p in db.mr && p.0 == h && Dirname(p.1) == dir;
    assert p in t.mr;
  }

  lemma LinkedRows(db: Db, e: Option<Epoch>, name: Name, hash: Hash, dir: Name, data: Bytes, q: nat)
    requires CanLink(db, e, name, hash)
    ensures var t := StoreInline(db, e, name, hash, data); t.mb == db.mb && t.mr == db.mr && t.bd == db.bd
    ensures var t := ShareBlock(db, e, name, hash, dir, q);
            && t.mr == db.mr + {(hash, name)} && t.bd == db.bd
            && t.mb == if dir != Dirname(name) then db.mb[(Dirname(name), hash) := q] else db.mb
    ensures var t := NewBlock(db, e, name, hash, data, q);
            && t.mr == db.mr + {(hash, name)} && t.bd == db.bd[q := data]
            && t.mb == db.mb[(Dirname(name), hash) := q]
  {
    hide Dirname, Mentions, Link;
    var slot, mr := FindEntry(db, e, name).value, db.mr + {(hash, name)};
    LinkKeeps(db, slot, name, hash, None, Some(data));
    var mb := if dir != Dirname(name) then db.mb[(Dirname(name), hash) := q] else db.mb;
    LinkKeeps(db.(mb := mb, mr := mr), slot, name, hash, Some(q), None);
    LinkKeeps(db.(bd := db.bd[q := data], mb := db.mb[(Dirname(name), hash) := q], mr := mr), slot, name, hash,
              Some(q), None);
  }

  lemma LinkKeeps(db: Db, slot: Slot, name: Name, hash: Hash, q: Option<nat>, d: Option<Bytes>)
    requires HasSlot(db, slot, name)
    ensures var t := Link(db, slot, name, hash, q, d); t.mb == db.mb && t.mr == db.mr && t.bd == db.bd
  {}

  lemma CommittedRows(db: Db, name: Name, stored: FileInfo)
    ensures var t := Commit(db, name, stored); t.mb == db.mb && t.mr == db.mr && t.bd == db.bd
  {
    hide Carried;
  }

  lemma PromotedRows(db: Db, e: Epoch, name: Name)
    requires (e, name) in db.mi
    ensures var t := PromoteStaged(db, e, name); t.mb == db.mb && t.mr == db.mr && t.bd == db.bd
  {
    hide Commit;
    CommittedRows(db.(mi := db.mi - {(e, name)}), name, db.mi[(e, name)]);
  }

  lemma CopiedRows(db: Db, c: Captured)
    ensures var t := CommitCopy(db, c.f, c.blocks); t.mb == db.mb && db.mr <= t.mr && t.bd == db.bd
  {
    hide Commit, Separated;
    var refs := set p | p in Separated(c.blocks) :: (p.0, c.f.name);
    CommittedRows(db.(mr := db.mr + refs), c.f.name, FromWire(c.f).(blocks := c.blocks));
  }

  lemma CommitsRows(s: State, a: Action)
    requires a.Complete? || a.LateComplete? || a.Metadata? || a.Resolve? || a.Copy?
    requires Shaped(s) && CanWrite(s, a, CODE)
    ensures var t := Wrote(s, a);
            && Shaped(t) && t.history == s.history + [Now(t)] && t.doomed == s.doomed && s.pending <= t.pending
            && Now(t).mb == Now(s).mb && Now(s).mr <= Now(t).mr && Now(t).bd == Now(s).bd
  {
    hide CanMove, Moved, Commit, PromoteStaged, CommitCopy, Separated, Carry, Files.Complete, SeqsIn;
    var db := Now(s);
    match a
    case Complete(name, _) => PromotedRows(db, s.epoch, name);
    case LateComplete(name, _, _) => PromotedRows(db, s.epoch, name);
    case Metadata(f) => CommittedRows(db, f.name, FromWire(f));
    case Resolve(f) => CommittedRows(db, f.name, FromWire(f));
    case Copy(c) => CopiedRows(db, c);
  }

  /** Writers that put no block. */
  lemma OtherRows(s: State, a: Action)
    requires Shaped(s) && Writes(a) && !a.Fresh? && !a.Share? && CanWrite(s, a, CODE)
    ensures var t := Wrote(s, a);
            && Shaped(t) && t.history == s.history + [Now(t)] && t.doomed == s.doomed && s.pending <= t.pending
            && Now(t).mb == Now(s).mb && Now(s).mr <= Now(t).mr && Now(t).bd == Now(s).bd
  {
    hide CanWrite, Wrote;
    if a.Complete? || a.LateComplete? || a.Metadata? || a.Resolve? || a.Copy? {
      CommitsRows(s, a);
    } else {
      PlainRows(s, a);
    }
  }

  lemma PlainRows(s: State, a: Action)
    requires a.Stage? || a.Inline? || a.Restore? || a.GcInbox? || a.Peer?
    requires Shaped(s) && CanWrite(s, a, CODE)
    ensures var t := Wrote(s, a);
            && Shaped(t) && t.history == s.history + [Now(t)] && t.doomed == s.doomed && s.pending <= t.pending
            && Now(t).mb == Now(s).mb && Now(s).mr <= Now(t).mr && Now(t).bd == Now(s).bd
  {
    hide CanMove, Moved, StoreInline, CanLink, SeqsOf, Told, ValidName, ValidInfo, Supplies;
    match a
    case Inline(name, hash, data) => LinkedRows(Now(s), Some(s.epoch), name, hash, [], data, 0);
    case Stage(_) =>
    case Restore(_, _) =>
    case GcInbox =>
    case Peer(_, _) =>
  }

  /** The batch of one block: the way is the old one or leads to its number. */
  lemma FoundLinked(s: State, t: State, j: nat, h: Hash, dir: Name, x: nat, hash: Hash, q: nat) returns (y: nat)
    requires Found(s, j, h, dir, x) && Shaped(t) && Now(s).mr <= Now(t).mr
    requires t.jobs == s.jobs && t.nextJob == s.nextJob && t.epoch == s.epoch && t.doomed == s.doomed
    requires t.pending == s.pending + {(hash, q)} && q !in s.doomed && q in Now(t).bd
    requires Now(s).bd.Keys <= Now(t).bd.Keys
    requires Now(t).mb == Now(s).mb || exists d :: Now(t).mb == Now(s).mb[(d, hash) := q]
    ensures Found(t, j, h, dir, y)
  {
    hide Holds, Dirname, Known, KnowsHash;
    WayIs(Now(s), h, dir, x);
    y := Now(t).mb[(dir, h)];
    assert y == x || y == q;
    assert (hash, q) in t.pending;
    Way(Now(s), Now(t), h, dir, x, y);
    FoundWrote(s, t, j, h, dir, x, y);
  }

  lemma FoundFresh(s: State, name: Name, hash: Hash, data: Bytes, q: nat, j: nat, h: Hash, dir: Name, x: nat)
    returns (y: nat)
    requires Shaped(s) && CanWrite(s, Fresh(name, hash, data, q), CODE) && Found(s, j, h, dir, x)
    requires FolderContent.TakenOk(s)
    ensures Found(Wrote(s, Fresh(name, hash, data, q)), j, h, dir, y)
  {
    hide Found, Dirname, CanLink, NewBlock, Supplies;
    LinkedRows(Now(s), Some(s.epoch), name, hash, [], data, q);
    var t := Wrote(s, Fresh(name, hash, data, q));
    assert Now(t).mb == Now(s).mb[(Dirname(name), hash) := q];
    y := FoundLinked(s, t, j, h, dir, x, hash, q);
  }

  lemma FoundShare(s: State, name: Name, f: Sighting, j: nat, h: Hash, dir: Name, x: nat) returns (y: nat)
    requires Shaped(s) && CanWrite(s, Share(name, f), CODE) && Found(s, j, h, dir, x)
    requires f.seqno in Now(s).bd && f.seqno !in s.doomed
    ensures Found(Wrote(s, Share(name, f)), j, h, dir, y)
  {
    hide Found, Dirname, CanLink, ShareBlock;
    LinkedRows(Now(s), Some(s.epoch), name, f.hash, f.dir, [], f.seqno);
    var t := Wrote(s, Share(name, f));
    assert Now(t).mb == Now(s).mb || Now(t).mb == Now(s).mb[(Dirname(name), f.hash) := f.seqno];
    y := FoundLinked(s, t, j, h, dir, x, f.hash, f.seqno);
  }

  lemma FoundOther(s: State, a: Action, j: nat, h: Hash, dir: Name, x: nat)
    requires Shaped(s) && Writes(a) && !a.Fresh? && !a.Share? && CanWrite(s, a, CODE) && Found(s, j, h, dir, x)
    ensures Found(Wrote(s, a), j, h, dir, x)
  {
    hide Holds, CanWrite, Wrote, Known, KnowsHash;
    OtherRows(s, a);
    JobsUnwritten(s, a);
    WayIs(Now(s), h, dir, x);
    Way(Now(s), Now(Wrote(s, a)), h, dir, x, x);
    FoundWrote(s, Wrote(s, a), j, h, dir, x, x);
  }

  lemma FoundWriter(s: State, a: Action, j: nat, h: Hash, dir: Name, x: nat, pre: Premises) returns (y: nat)
    requires Shaped(s) && Writes(a) && CanWrite(s, a, pre) && CanWrite(s, a, CODE) && pre.spared && pre.freshLookup
    requires Found(s, j, h, dir, x) && FolderContent.TakenOk(s)
    ensures Found(Wrote(s, a), j, h, dir, y)
  {
    hide Found, Wrote, FolderContent.TakenOk;
    y := x;
    if a.Fresh? { y := FoundFresh(s, a.name, a.hash, a.data, a.seqno, j, h, dir, x); }
    else if a.Share? { y := FoundShare(s, a.name, a.at, j, h, dir, x); }
    else { FoundOther(s, a, j, h, dir, x); }
  }

  lemma FoundHolds(s: State, j: nat, h: Hash, dir: Name, x: nat)
    requires Found(s, j, h, dir, x)
    ensures Shaped(s) && Holds(Now(s), h, dir, x)
  {}

  lemma WayIs(db: Db, h: Hash, dir: Name, x: nat)
    requires Holds(db, h, dir, x)
    ensures (dir, h) in db.mb && db.mb[(dir, h)] == x && x in db.bd
  {}

  /** The databases stay as they are, and the job knows no less. */
  lemma FoundSame(s: State, t: State, j: nat, h: Hash, dir: Name, x: nat)
    requires Found(s, j, h, dir, x) && Shaped(t) && t.epoch == s.epoch && s.nextJob <= t.nextJob && x !in t.doomed
    requires Now(t).mb == Now(s).mb && Now(t).mr == Now(s).mr && Now(t).bd == Now(s).bd
    requires j in t.jobs ==> j in s.jobs && !t.jobs[j].stage.Registered? && KnowsHash(t, j, h) && x in Known(t, j)
    ensures Found(t, j, h, dir, x)
  {
    hide Known, KnowsHash;
    WayIs(Now(s), h, dir, x);
    Way(Now(s), Now(t), h, dir, x, x);
  }

  /** Steps that concern jobs. */
  lemma FoundJobs(s: State, a: Action, j: nat, h: Hash, dir: Name, x: nat)
    requires Shaped(s) && AboutJobs(a) && !a.Crash? && CanMove(s, a, CODE) && Found(s, j, h, dir, x)
    ensures Found(Moved(s, a), j, h, dir, x)
  {
    hide Holds, ScanHashes, ScanSeqs, LiveSeqs, FileSeqs, Visible, PeerFloor;
    var t := Moved(s, a);
    match a {
      case Learn(hash, q) =>
        assert j in s.jobs ==> q in t.jobs[j].seqs by { assert (hash, q) in {(hash, q)}; }
        assert PendingSeqs(s) <= PendingSeqs(t) + {q};
      case Register => assert PendingSeqs(t) == PendingSeqs(s);
      case Snapshot(_) => assert PendingSeqs(t) == PendingSeqs(s);
      case Scan(_) => assert PendingSeqs(t) == PendingSeqs(s);
      case Noise(_, _, _) => assert PendingSeqs(t) == PendingSeqs(s);
      case End(_) => assert PendingSeqs(t) == PendingSeqs(s);
    }
    FoundSame(s, t, j, h, dir, x);
  }

  /** Steps of calls, flushes, and numbers being taken. */
  predicate OfCalls(a: Action) {
    a.Compare? || a.CopyRead? || a.Number? || a.Clear? || a.Refer? || a.Spot? || a.Lookup? || a.Peek? || a.Flush?
  }

  lemma CallsRows(s: State, a: Action)
    requires Shaped(s) && OfCalls(a) && CanMove(s, a, CODE)
    ensures var t := Moved(s, a);
            && Shaped(t) && t.pending == s.pending && t.doomed == s.doomed
            && Now(t).mb == Now(s).mb && Now(t).mr == Now(s).mr && Now(t).bd == Now(s).bd
  {
    hide CanWrite, Wrote, CopyBlocks, MetadataOnly, BlockSafe, Refers, Take, Taken;
    if a.Number? { TakeRows(s, a.hash); }
  }

  lemma TakeRows(s: State, hash: Hash)
    requires Shaped(s)
    ensures var t := Take(s, hash);
            && Shaped(t) && t.pending == s.pending && t.doomed == s.doomed
            && Now(t).mb == Now(s).mb && Now(t).mr == Now(s).mr && Now(t).bd == Now(s).bd
  {
    hide Allocate;
  }

  lemma FoundCalls(s: State, a: Action, j: nat, h: Hash, dir: Name, x: nat)
    requires Shaped(s) && OfCalls(a) && CanMove(s, a, CODE) && Found(s, j, h, dir, x)
    ensures Found(Moved(s, a), j, h, dir, x)
  {
    hide CanWrite, Wrote, CanMove, Moved, Holds, ScanHashes, ScanSeqs;
    var t := Moved(s, a);
    JobsUntouched(s, a);
    CallsRows(s, a);
    assert PendingSeqs(t) == PendingSeqs(s);
    FoundSame(s, t, j, h, dir, x);
  }

  /** The job's own judgement of a row, and any other of a row that does not lead there. */
  lemma FoundDrop(s: State, i: nat, row: Row, j: nat, h: Hash, dir: Name, x: nat)
    requires Enabled(s, Drop(i, row), CODE) && (row.DataRow? ==> JudgedInTime(s, i, row.seqno))
    requires Found(s, j, h, dir, x) && (i != j ==> !Leads(row, h))
    ensures Found(Next(s, Drop(i, row)), j, h, dir, x)
  {
    hide ScanHashes, ScanSeqs, CanWrite, Wrote;
    var t, f := Next(s, Drop(i, row)), FilterOf(s, i);
    assert Now(t) == Pruned(f, Now(s), row) && t.jobs == s.jobs && PendingSeqs(t) == PendingSeqs(s);
    var p :| p in Now(s).mr && p.0 == h && Dirname(p.1) == dir;
    assert p in Now(t).mr;
  }

  lemma FoundInstall(s: State, q: nat, j: nat, h: Hash, dir: Name, x: nat)
    requires Enabled(s, Install(q), CODE) && Found(s, j, h, dir, x)
    ensures Found(Next(s, Install(q)), j, h, dir, x)
  {
    hide ScanHashes, ScanSeqs, CanWrite, Wrote;
    var t := Next(s, Install(q));
    assert Now(t) == Now(s).(bd := Now(s).bd - {q}) && PendingSeqs(t) == PendingSeqs(s);
    var p :| p in Now(s).mr && p.0 == h && Dirname(p.1) == dir;
    assert p in Now(t).mr;
  }

  lemma FoundDecide(s: State, q: nat, j: nat, h: Hash, dir: Name, x: nat)
    requires Enabled(s, Decide(j, q), CODE) && JudgedInTime(s, j, q) && Found(s, j, h, dir, x)
    ensures Found(Next(s, Decide(j, q)), j, h, dir, x)
  {
    hide Holds, ScanHashes, ScanSeqs, CanWrite, Wrote;
    var t := Next(s, Decide(j, q));
    assert PendingSeqs(t) == PendingSeqs(s);
  }

  lemma FoundStep(s: State, a: Action, j: nat, h: Hash, dir: Name, x: nat, pre: Premises) returns (y: nat)
    requires Enabled(s, a, pre) && Enabled(s, a, CODE) && pre.recorded && pre.spared && pre.freshLookup
    requires Minds(a, j, h) && Found(s, j, h, dir, x) && FolderContent.TakenOk(s)
    ensures Found(Next(s, a), j, h, dir, y)
  {
    hide Found, CanWrite, Wrote, FolderContent.TakenOk, JudgedInTime, LiveSeqs, FileSeqs, Visible, MetadataOnly,
         BlockSafe, Refers, StagedSeqs;
    y := x;
    if Writes(a) { y := FoundWriter(s, a, j, h, dir, x, pre); }
    else if AboutJobs(a) { FoundJobs(s, a, j, h, dir, x); }
    else if a.Drop? { FoundDrop(s, a.job, a.row, j, h, dir, x); }
    else if a.Decide? { FoundDecide(s, a.seqno, j, h, dir, x); }
    else if a.Install? { FoundInstall(s, a.seqno, j, h, dir, x); }
    else { FoundCalls(s, a, j, h, dir, x); }
  }

  lemma {:induction false} FoundRun(s: State, acts: seq<Action>, t: State, j: nat, h: Hash, dir: Name, x: nat,
                                    pre: Premises)
    returns (y: nat)
    requires Runs(s, acts, t, pre) && pre.recorded && pre.spared && pre.freshLookup
    requires FolderContent.ContentInv(s) && Found(s, j, h, dir, x) && forall i | 0 <= i < |acts| :: Minds(acts[i], j, h)
    ensures Found(t, j, h, dir, y)
    decreases |acts|
  {
    hide Found, Enabled, Next, FolderContent.ContentOk, FolderContent.NumbersOk, FolderContent.CallsOk, Minds;
    if acts == [] {
      y := x;
    } else {
      Weaken(s, acts[0], pre);
      var m := Next(s, acts[0]);
      FolderContent.Step(s, acts[0]);
      y := FoundStep(s, acts[0], j, h, dir, x, pre);
      forall i | 0 <= i < |acts[1..]| ensures Minds(acts[1..][i], j, h) { assert acts[1..][i] == acts[i + 1]; }
      y := FoundRun(m, acts[1..], t, j, h, dir, y, pre);
    }
  }

  predicate JobsBelow(s: State) { forall j | j in s.jobs :: j < s.nextJob }

  lemma BelowStep(s: State, a: Action)
    requires Enabled(s, a, CODE) && JobsBelow(s)
    ensures JobsBelow(Next(s, a))
  {
    hide CanWrite, Wrote, ScanSeqs, ScanHashes, LiveSeqs, FileSeqs, Visible, PeerFloor, StagedSeqs;
    if Writes(a) { JobsUnwritten(s, a); }
    else if !AboutJobs(a) { JobsUntouched(s, a); }
    else {
      match a
      case Learn(_, _) =>
      case Register =>
      case Snapshot(_) =>
      case Scan(_) =>
      case Noise(_, _, _) =>
      case End(_) =>
      case Crash(_, _) =>
    }
  }

  lemma {:induction false} BelowRun(s: State, acts: seq<Action>, t: State, pre: Premises)
    requires Runs(s, acts, t, pre) && JobsBelow(s)
    ensures JobsBelow(t)
    decreases |acts|
  {
    hide Enabled, Next;
    if acts != [] {
      Weaken(s, acts[0], pre);
      BelowStep(s, acts[0]);
      BelowRun(Next(s, acts[0]), acts[1..], t, pre);
    }
  }

  /** A file that the scan reads has the block under that number. */
  ghost predicate InUse(db: Db, e: Epoch, h: Hash, x: nat) {
    || (exists n :: n in db.mn && Names(db.mn[n], h, x))
    || exists k :: k in db.mi && k.0 == e && InboxCovers(e, k.1) && Names(db.mi[k], h, x)
  }

  predicate Names(f: FileInfo, h: Hash, x: nat) {
    exists i :: 0 <= i < |f.blocks| && f.blocks[i].hash == h && f.blocks[i].blockseq == Some(x)
  }

  lemma UseIsScanned(db: Db, e: Epoch, h: Hash, x: nat)
    requires InUse(db, e, h, x)
    ensures h in ScanHashes(db, e) && x in ScanSeqs(db, e) && x in LiveSeqs(db, e)
  {
    forall f: FileInfo | Names(f, h, x) ensures h in HashesOf(f) && x in SeqsOf(f) {
      var i :| 0 <= i < |f.blocks| && f.blocks[i].hash == h && f.blocks[i].blockseq == Some(x);
      assert f.blocks[i] in f.blocks;
    }
  }

  lemma Separately(f: FileInfo, b: Block)
    requires b in f.blocks && b.blockseq.Some?
    ensures Names(f, b.hash, b.blockseq.value)
  {
    var i :| 0 <= i < |f.blocks| && f.blocks[i] == b;
  }

  lemma ScannedHash(db: Db, e: Epoch, h: Hash)
    requires h in ScanHashes(db, e)
    ensures exists q :: InUse(db, e, h, q)
  {
    hide InboxCovers;
    if n :| n in db.mn && h in HashesOf(db.mn[n]) {
      var b :| b in db.mn[n].blocks && b.blockseq.Some? && b.hash == h;
      Separately(db.mn[n], b);
      assert InUse(db, e, h, b.blockseq.value);
    } else {
      var k :| k in db.mi && k.0 == e && InboxCovers(e, k.1) && h in HashesOf(db.mi[k]);
      var b :| b in db.mi[k].blocks && b.blockseq.Some? && b.hash == h;
      Separately(db.mi[k], b);
      assert InUse(db, e, h, b.blockseq.value);
    }
  }

  lemma ScannedSeq(db: Db, e: Epoch, x: nat)
    requires x in ScanSeqs(db, e)
    ensures exists h :: InUse(db, e, h, x)
  {
    hide InboxCovers;
    if n :| n in db.mn && x in SeqsOf(db.mn[n]) {
      var b :| b in db.mn[n].blocks && b.blockseq == Some(x);
      Separately(db.mn[n], b);
      assert InUse(db, e, b.hash, x);
    } else {
      var k :| k in db.mi && k.0 == e && InboxCovers(e, k.1) && x in SeqsOf(db.mi[k]);
      var b :| b in db.mi[k].blocks && b.blockseq == Some(x);
      Separately(db.mi[k], b);
      assert InUse(db, e, b.hash, x);
    }
  }

  /** A scan finds exactly the hashes and the numbers of the separated blocks of the files that it reads. */
  lemma ScannedIff(db: Db, e: Epoch, h: Hash, x: nat)
    ensures h in ScanHashes(db, e) <==> exists q :: InUse(db, e, h, q)
    ensures x in ScanSeqs(db, e) <==> exists g :: InUse(db, e, g, x)
  {
    hide InUse, ScanHashes, ScanSeqs;
    if h in ScanHashes(db, e) { ScannedHash(db, e, h); }
    if q :| InUse(db, e, h, q) { UseIsScanned(db, e, h, q); }
    if x in ScanSeqs(db, e) { ScannedSeq(db, e, x); }
    if g :| InUse(db, e, g, x) { UseIsScanned(db, e, g, x); }
  }

  /**
    A block that is in use when a job takes its snapshot, and can be found in a directory then, can be found
    there ever after, whatever the job judges and writers do, until a crash or another job's judgement.
   */
  lemma CollectionKeepsFound(e: Epoch, before: seq<Action>, m: State, j: nat, h: Hash, dir: Name, x: nat,
                             acts: seq<Action>, t: State)
    requires Runs(Initial(e), before, m, FolderGc.STRICT) && Enabled(m, Snapshot(j), FolderGc.STRICT)
    requires InUse(Now(m), m.epoch, h, x) && Holds(Now(m), h, dir, x)
    requires Enabled(m, Snapshot(j), CODE) && Runs(Next(m, Snapshot(j)), acts, t, FolderGc.STRICT)
    requires forall i | 0 <= i < |acts| :: Minds(acts[i], j, h)
    ensures Shaped(t) && exists y :: Holds(Now(t), h, dir, y)
  {
    hide Runs, FolderGc.Inv, FolderContent.ContentInv, InUse, Enabled, Next, Found;
    FolderGc.InitialOk(e);
    FolderContent.InitialOk(e);
    FolderGc.RunKeeps(Initial(e), before, m);
    FolderContent.RunKeeps(Initial(e), before, m, FolderGc.STRICT);
    BelowRun(Initial(e), before, m, FolderGc.STRICT);
    FolderGc.InvNow(m);
    FolderContent.Step(m, Snapshot(j));
    SnapshotFinds(m, j, h, dir, x);
    var y := FoundRun(Next(m, Snapshot(j)), acts, t, j, h, dir, x, FolderGc.STRICT);
    FoundHolds(t, j, h, dir, y);
  }

  lemma SnapshotFinds(m: State, j: nat, h: Hash, dir: Name, x: nat)
    requires Enabled(m, Snapshot(j), CODE) && JobsBelow(m) && InUse(Now(m), m.epoch, h, x) && Holds(Now(m), h, dir, x)
    requires LiveSeqs(Now(m), m.epoch) !! m.doomed
    ensures Found(Next(m, Snapshot(j)), j, h, dir, x)
  {
    hide Holds, InUse, ScanHashes, ScanSeqs, LiveSeqs, FileSeqs, CanWrite, Wrote;
    UseIsScanned(Now(m), m.epoch, h, x);
  }

  // ---------------------------------------------------------------- what a lookup may rely on

  /** Jobs forget nothing. */
  lemma KeepsHashes(s: State, a: Action, j: nat)
    requires Enabled(s, a, CODE) && j < s.nextJob && j in Next(s, a).jobs
    ensures j in s.jobs && s.jobs[j].hashes <= Next(s, a).jobs[j].hashes
  {
    hide Wrote, CanWrite, ScanHashes, ScanSeqs, LiveSeqs, FileSeqs, Visible, PeerFloor, StagedSeqs;
    if Writes(a) { JobsUnwritten(s, a); }
    else if !AboutJobs(a) { JobsUntouched(s, a); }
    else {
      match a
      case Learn(_, _) =>
      case Register =>
      case Snapshot(_) =>
      case Scan(_) =>
      case Noise(_, _, _) =>
      case End(_) =>
      case Crash(_, _) =>
    }
  }

  lemma {:induction false} StillKnows(s: State, acts: seq<Action>, t: State, j: nat)
    requires Runs(s, acts, t, CODE) && j < s.nextJob && j in t.jobs
    ensures j in s.jobs && s.jobs[j].hashes <= t.jobs[j].hashes
    decreases |acts|
  {
    hide Enabled, Next;
    if acts != [] {
      GrowsOnce(s, acts[0]);
      StillKnows(Next(s, acts[0]), acts[1..], t, j);
      KeepsHashes(s, acts[0], j);
    }
  }

  /**
    A lookup goes on only past jobs that keep the way to the block: none of those that are active when it
    asks will ever prune a pointer or a reference of the hash.
   */
  lemma ClearedIsKept(s: State, h: Hash, acts: seq<Action>, t: State, j: nat, row: Row, k: nat)
    requires Enabled(s, Clear(h), CODE) && Runs(s, acts, t, CODE) && j in s.jobs && j < s.nextJob
    requires row.PointerRow? || row.ReverseRow?
    requires row.hash == h && Enabled(t, Drop(j, row), CODE) && k < |t.history| && HasRow(t.history[k], row)
    ensures var after := Next(t, Drop(j, row)).history; |after| == |t.history| && HasRow(after[k], row)
  {
    hide Runs, Next, Pruned, HasRow, Refers;
    DropIs(t, j, row);
    StillKnows(s, acts, t, j);
    LeftIff(FilterOf(t, j), t.history[k], row);
  }
}
