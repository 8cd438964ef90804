/**
  Runs of one folder: writers, block numbers, compaction jobs, flushes and crashes, interleaved.

  `history` lists the database after every batch since the last crash; the newest is the live view.
  A crash falls back to any entry from the last flush on.  Rows dropped by compaction are gone from
  every entry.  A bloom filter is any superset of what was put into it: noise may be added at any time.
 */
module FolderRuns {
  import opened Prelude
  import opened Files
  import opened VersionVectors
  import opened StoreKeys
  import opened FolderModel

  /** `at` is the last flush before the snapshot `snap`. */
  datatype Stage = Registered | Snapped(at: nat, snap: Db) | Ready(at: nat, floor: Option<int>)

  datatype Job = Job(hashes: set<Hash>, seqs: set<nat>, stage: Stage)

  /** Directory `dir` was seen to lead from `hash` to `seqno`. */
  datatype Sighting = Sighting(hash: Hash, dir: Name, seqno: nat)

  /** A conflict copy with the blocks that were read for it. */
  datatype Captured = Captured(f: WireInfo, blocks: seq<Block>)

  /**
    What calls under way have read.  Any number of calls may have read the same thing at the same
    moment, so nothing is taken away when one of them goes on.

    `cleared`, `referred`, `spotted` and `found` are how far `find_block_dir` has got: all jobs took the
    hash for live, a file in the directory refers to it, the pointer was read, the data was there.
    `copies` are reads of `put_file_with_carry`, `compared` updates found to change metadata only,
    `peeked` entries that a call has read under the lock of their name in order to write them anew.
   */
  datatype Calls = Calls(
    cleared: set<Hash>,
    referred: set<(Hash, Name)>,
    spotted: set<Sighting>,
    found: set<Sighting>,
    copies: set<Captured>,
    compared: set<WireInfo>,
    peeked: set<(Name, FileInfo)>)

  const NOTHING: Calls := Calls({}, {}, {}, {}, {}, {}, {})

  /**
    `owner` records for which hash each block number was handed out, `supplied` the data that came
    with each hash, `cut` the highest peer floor any job has pruned with.  `inputs` are the data rows that
    each job goes through: those flushed before it registered.  `taken` are numbers handed
    out and not written yet, `pending` writes and links not recorded with the jobs yet, `doomed` data
    rows that a filter has judged dead and that are still there.
   */
  datatype State = State(
    history: seq<Db>,
    flushed: nat,
    range: Range,
    epoch: Epoch,
    jobs: map<nat, Job>,
    nextJob: nat,
    inputs: map<nat, set<nat>>,
    owner: map<nat, Hash>,
    supplied: map<Hash, Bytes>,
    cut: nat,
    calls: Calls,
    taken: map<nat, Hash>,
    pending: set<(Hash, nat)>,
    doomed: set<nat>)

  predicate Shaped(s: State) { s.flushed < |s.history| }

  function Now(s: State): Db
    requires Shaped(s)
  {
    s.history[|s.history| - 1]
  }

  datatype Action =
    | Stage(f: WireInfo)
    | Complete(name: Name, expected: Option<Vector>)
    | Compare(f: WireInfo)                         // apply_update: the blocks are those of the committed entry
    | Metadata(f: WireInfo)                        // and its put_file
    | Resolve(f: WireInfo)                         // the winner of a conflict
    | CopyRead(f: WireInfo, from: Name)            // the loser's copy: what it can take over is read
    | Copy(c: Captured)                            // and committed
    | Inline(name: Name, hash: Hash, data: Bytes)  // store_block of a small block
    | Number(hash: Hash)                           // store_block: a number is taken
    | Fresh(name: Name, hash: Hash, data: Bytes, seqno: nat)  // and the data written under it
    | Clear(hash: Hash)                            // find_block_dir: is_block_safe
    | Refer(hash: Hash, dir: Name)                 // find_block_dir: a reverse reference
    | Spot(at: Sighting)                           // find_block_dir: the pointer
    | Lookup(at: Sighting)                         // find_block_dir: the data
    | Share(name: Name, at: Sighting)              // store_block or reuse_block of a known block
    | Learn(hash: Hash, seqno: nat)                // record_block_write
    | Peek(name: Name)                             // a call reads the entry it is about to write anew
    | Restore(name: Name, entry: FileInfo)         // and does so although the collector has pruned it
    | LateComplete(name: Name, expected: Option<Vector>, entry: FileInfo)  // complete_file, checked against such
    | GcInbox
    | Peer(device: Device, reached: int)
    | Flush
    | Register
    | Snapshot(job: nat)
    | Scan(job: nat)
    | Noise(job: nat, hashes: set<Hash>, seqs: set<nat>)
    | Drop(job: nat, row: Row)                     // a row is judged and is gone
    | Decide(job: nat, seqno: nat)                 // a data row is judged
    | Install(seqno: nat)                          // and is gone later, perhaps after its job
    | End(job: nat)
    | Crash(k: nat, epoch: Epoch)

  /**
    Premises on a run that the code does not enforce.

    `scanSees`: when a job takes its snapshot, every number among its inputs that a committed file holds,
    or a staged file of the current epoch, is found by the job's scan, recorded with the job or about to
    be.  `crashSees`: so is every number among its inputs that a committed file holds in a state before
    it that a crash can still fall back to.  `intact`: the staged files that a new process finds in its
    epoch have their rows.  `recorded`: no filter judges a number dead whose write has yet to be recorded.  `spared`: a
    number judged dead is not linked again before its row is gone.  `freshLookup`: the row that a lookup
    has found is still there when the block is linked.  `freshCopy`: the rows that a conflict copy takes
    over are still there when it is committed.  `backed`: the numbers of an entry that is written anew
    although it was pruned have their rows, are not judged dead, and are known to every job among whose
    inputs they are, unless the job has yet to take its snapshot.
   */
  datatype Premises = Premises(
    scanSees: bool,
    crashSees: bool,
    intact: bool,
    recorded: bool,
    spared: bool,
    freshLookup: bool,
    freshCopy: bool,
    backed: bool)

  predicate SameBlocks(a: seq<Block>, b: seq<WireBlock>) {
    |a| == |b| && forall i | 0 <= i < |a| :: a[i].hash == b[i].hash && a[i].size == b[i].size
  }

  /** The update is newer than the committed entry and has the same blocks. */
  predicate MetadataOnly(local: FileInfo, f: WireInfo) {
    && local.version.Some? && f.version.Some? && CompareSpec(local.version.value, f.version.value) == Some(Less)
    && SameBlocks(local.blocks, f.blocks)
  }

  /** Every active job takes the hash for live. */
  predicate BlockSafe(jobs: map<nat, Job>, hash: Hash) { forall j | j in jobs :: hash in jobs[j].hashes }

  /** The data agrees with what came before under the same hash. */
  predicate Supplies(s: State, hash: Hash, data: Bytes) { hash in s.supplied ==> s.supplied[hash] == data }

  predicate NobodyHolds(db: Db, hash: Hash) {
    forall k | k in db.mb && k.1 == hash :: !Holds(db, hash, k.0, db.mb[k])
  }

  predicate Refers(db: Db, hash: Hash, dir: Name) { exists p :: p in db.mr && p.0 == hash && Dirname(p.1) == dir }

  function PendingSeqs(s: State): set<nat> { set p | p in s.pending :: p.1 }

  function Inputs(s: State, j: nat): set<nat> { if j in s.inputs then s.inputs[j] else {} }

  /** A filter that judges the number dead does so after all its writes have been recorded. */
  predicate JudgedInTime(s: State, j: nat, seqno: nat)
    requires j in s.jobs
  {
    seqno in s.jobs[j].seqs || seqno !in PendingSeqs(s)
  }

  /**
    Steps of a writer that end in a batch.  What is restored is in the same batch as what the call
    writes over it; to let other steps come between only adds runs.
   */
  predicate Writes(a: Action) {
    a.Stage? || a.Complete? || a.Metadata? || a.Resolve? || a.Copy? || a.Inline? || a.Fresh? || a.Share?
    || a.Restore? || a.LateComplete? || a.GcInbox? || a.Peer?
  }

  predicate CanWrite(s: State, a: Action, pre: Premises)
    requires Shaped(s) && Writes(a)
  {
    match a
    case Stage(f) => ValidName(f.name) && ValidInfo(f)
    case Complete(name, expected) => CompleteFile(Now(s), s.epoch, name, expected).Promoted?
    case Metadata(f) => f in s.calls.compared
    case Resolve(_) => true
    case Copy(c) =>
      && c in s.calls.copies
      && (pre.freshCopy ==> SeqsIn(c.blocks) <= Now(s).bd.Keys) && (pre.spared ==> SeqsIn(c.blocks) !! s.doomed)
    case Inline(name, hash, data) =>
      |hash| == HASH_LEN && |data| < INLINE_BLOCK_THRESHOLD && CanLink(Now(s), Some(s.epoch), name, hash)
        && Supplies(s, hash, data)
    case Fresh(name, hash, data, q) =>
      && q in s.taken && s.taken[q] == hash
      && |data| >= INLINE_BLOCK_THRESHOLD && CanLink(Now(s), Some(s.epoch), name, hash) && Supplies(s, hash, data)
    case Share(name, f) =>
      && f in s.calls.found && CanLink(Now(s), Some(s.epoch), name, f.hash)
      && (pre.freshLookup ==> f.seqno in Now(s).bd) && (pre.spared ==> f.seqno !in s.doomed)
    case Restore(name, f) =>
      && (name, f) in s.calls.peeked && name !in Now(s).mn
      && (pre.backed ==> SeqsOf(f) <= Now(s).bd.Keys && SeqsOf(f) !! s.doomed && Told(s, SeqsOf(f)))
    case LateComplete(name, expected, f) =>
      && (name, f) in s.calls.peeked && name !in Now(s).mn && (s.epoch, name) in Now(s).mi
      && Now(s).mi[(s.epoch, name)].version == expected
      && Files.Complete(Carry(Now(s).mi[(s.epoch, name)].blocks, f.blocks))
    case GcInbox => true
    case Peer(_, _) => true
  }

  predicate CanMove(s: State, a: Action, pre: Premises)
    requires Shaped(s) && !Writes(a)
  {
    match a
    case Compare(f) => f.name in Now(s).mn && MetadataOnly(Now(s).mn[f.name], f)
    case CopyRead(_, _) => true
    case Number(hash) => |hash| == HASH_LEN
    case Clear(hash) => |hash| == HASH_LEN && BlockSafe(s.jobs, hash)
    case Refer(hash, dir) => hash in s.calls.cleared && Refers(Now(s), hash, dir)
    case Spot(f) =>
      (f.hash, f.dir) in s.calls.referred && (f.dir, f.hash) in Now(s).mb && Now(s).mb[(f.dir, f.hash)] == f.seqno
    case Lookup(f) => f in s.calls.spotted && f.seqno in Now(s).bd
    case Learn(hash, q) => (hash, q) in s.pending
    case Peek(name) => name in Now(s).mn
    case Flush => true
    case Register => true
    case Snapshot(j) =>
      && j in s.jobs && s.jobs[j].stage.Registered?
      && (pre.scanSees ==> LiveSeqs(Now(s), s.epoch) * Inputs(s, j) <= Visible(s, j))
      && (pre.crashSees ==>
            forall k | s.flushed <= k < |s.history| - 1 :: FileSeqs(s.history[k]) * Inputs(s, j) <= Visible(s, j))
    case Scan(j) => j in s.jobs && s.jobs[j].stage.Snapped?
    case Noise(j, _, _) => j in s.jobs
    case Drop(j, row) =>
      && j in s.jobs && s.jobs[j].stage.Ready? && (row.DataRow? ==> row.seqno in Inputs(s, j))
      && (pre.recorded && row.DataRow? ==> JudgedInTime(s, j, row.seqno))
    case Decide(j, q) =>
      && j in s.jobs && s.jobs[j].stage.Ready? && q in Inputs(s, j) && q in Now(s).bd && q !in s.jobs[j].seqs
      && (pre.recorded ==> JudgedInTime(s, j, q))
    case Install(q) => q in s.doomed
    case End(j) => j in s.jobs
    case Crash(k, e) =>
      s.flushed <= k < |s.history| && (pre.intact ==> StagedSeqs(s.history[k], e) <= s.history[k].bd.Keys)
  }

  predicate Enabled(s: State, a: Action, pre: Premises) {
    Shaped(s) && if Writes(a) then CanWrite(s, a, pre) else CanMove(s, a, pre)
  }

  /** A batch is appended. */
  function Write(s: State, db: Db): State { s.(history := s.history + [db]) }

  /** A block written or linked is recorded with every active job. */
  function Record(jobs: map<nat, Job>, pairs: set<(Hash, nat)>): map<nat, Job> {
    map j | j in jobs ::
      jobs[j].(hashes := jobs[j].hashes + (set p | p in pairs :: p.0),
               seqs := jobs[j].seqs + (set p | p in pairs :: p.1))
  }

  /** The next number for `hash`; a refill of the reservation is written and flushed first. */
  function Take(s: State, hash: Hash): State
    requires Shaped(s)
  {
    var a := Allocate(s.range, Now(s).nextBlockseq);
    var s1 := s.(range := a.range, owner := s.owner[a.seqno := hash]);
    if a.refilled then Write(s1, Now(s).(nextBlockseq := a.nextBlockseq)).(flushed := |s.history|) else s1
  }

  function Taken(s: State): nat
    requires Shaped(s)
  {
    Allocate(s.range, Now(s).nextBlockseq).seqno
  }

  function SeqsIn(blocks: seq<Block>): set<nat> { set b | b in blocks && b.blockseq.Some? :: b.blockseq.value }

  /** Block numbers in an entry. */
  function SeqsOf(f: FileInfo): set<nat> { SeqsIn(f.blocks) }

  function HashesOf(f: FileInfo): set<Hash> { set b | b in f.blocks && b.blockseq.Some? :: b.hash }

  /** What committed files refer to. */
  function FileSeqs(db: Db): set<nat> { set n, q | n in db.mn && q in SeqsOf(db.mn[n]) :: q }

  /** What a scan of the snapshot finds: committed files and the staged files its prefix covers. */
  function ScanSeqs(db: Db, epoch: Epoch): set<nat> {
    FileSeqs(db) + (set k, q | k in db.mi && k.0 == epoch && InboxCovers(epoch, k.1) && q in SeqsOf(db.mi[k]) :: q)
  }

  function ScanHashes(db: Db, epoch: Epoch): set<Hash> {
    (set n, h | n in db.mn && h in HashesOf(db.mn[n]) :: h) +
    (set k, h | k in db.mi && k.0 == epoch && InboxCovers(epoch, k.1) && h in HashesOf(db.mi[k]) :: h)
  }

  /** What staged files of the epoch refer to. */
  function StagedSeqs(db: Db, epoch: Epoch): set<nat> {
    set k, q | k in db.mi && k.0 == epoch && q in SeqsOf(db.mi[k]) :: q
  }

  /** What committed files and all staged files of the epoch refer to. */
  function LiveSeqs(db: Db, epoch: Epoch): set<nat> { FileSeqs(db) + StagedSeqs(db, epoch) }

  /** What a job will know that takes its snapshot now. */
  function Visible(s: State, j: nat): set<nat>
    requires Shaped(s) && j in s.jobs
  {
    ScanSeqs(Now(s), s.epoch) + s.jobs[j].seqs + PendingSeqs(s)
  }

  /** What a job that has taken its snapshot knows, or is about to. */
  function Known(s: State, j: nat): set<nat>
    requires j in s.jobs
  {
    var job := s.jobs[j];
    job.seqs + PendingSeqs(s) + if job.stage.Snapped? then ScanSeqs(job.stage.snap, s.epoch) else {}
  }

  /** The numbers are known to every job past its snapshot that goes through their rows. */
  predicate Told(s: State, seqs: set<nat>) {
    forall j | j in s.jobs && !s.jobs[j].stage.Registered? :: seqs * Inputs(s, j) <= Known(s, j)
  }

  function FilterOf(s: State, j: nat): Filter
    requires j in s.jobs && s.jobs[j].stage.Ready?
  {
    Filter(s.jobs[j].hashes, s.jobs[j].seqs, s.epoch, s.jobs[j].stage.floor)
  }

  function PruneAll(f: Filter, history: seq<Db>, row: Row): (r: seq<Db>)
    ensures |r| == |history|
  {
    seq(|history|, i requires 0 <= i < |history| => Pruned(f, history[i], row))
  }

  function LoseAll(history: seq<Db>, seqno: nat): (r: seq<Db>)
    ensures |r| == |history|
  {
    seq(|history|, i requires 0 <= i < |history| => WithoutRow(history[i], DataRow(seqno)))
  }

  function MaxCut(cut: nat, floor: Option<int>): nat {
    if floor.Some? && floor.value > cut as int then floor.value else cut
  }

  function WithJob(s: State, j: nat, job: Job): State { s.(jobs := s.jobs[j := job]) }

  /** What the code guarantees by itself. */
  const CODE: Premises := Premises(false, false, false, false, false, false, false, false)

  function Wrote(s: State, a: Action): State
    requires Shaped(s) && Writes(a) && CanWrite(s, a, CODE)
  {
    var db := Now(s);
    match a
    case Stage(f) => Write(s, StageFile(db, s.epoch, f))
    case Complete(name, expected) => Write(s, CompleteFile(db, s.epoch, name, expected).db)
    case Metadata(f) => Write(s, PutFile(db, f))
    case Resolve(f) => Write(s, PutFile(db, f))
    case Copy(x) => Write(s, CommitCopy(db, x.f, x.blocks)).(pending := s.pending + Separated(x.blocks))
    case Inline(name, hash, data) =>
      Write(s, StoreInline(db, Some(s.epoch), name, hash, data)).(supplied := s.supplied[hash := data])
    case Fresh(name, hash, data, q) =>
      Write(s, NewBlock(db, Some(s.epoch), name, hash, data, q))
        .(supplied := s.supplied[hash := data], taken := s.taken - {q}, pending := s.pending + {(hash, q)})
    case Share(name, f) =>
      Write(s, ShareBlock(db, Some(s.epoch), name, f.hash, f.dir, f.seqno))
        .(pending := s.pending + {(f.hash, f.seqno)})
    case Restore(name, f) => Write(s, db.(mn := db.mn[name := f]))
    case LateComplete(name, _, _) => Write(s, PromoteStaged(db, s.epoch, name))
    case GcInbox => Write(s, FolderModel.GcInbox(db, s.epoch))
    case Peer(d, reached) => Write(s, db.(md := db.md[d := reached]))
  }

  function Moved(s: State, a: Action): State
    requires Shaped(s) && !Writes(a) && CanMove(s, a, CODE)
  {
    var db, c := Now(s), s.calls;
    match a
    case Compare(f) => s.(calls := c.(compared := c.compared + {f}))
    case CopyRead(f, from) => s.(calls := c.(copies := c.copies + {Captured(f, CopyBlocks(db, f, from))}))
    case Number(hash) => Take(s, hash).(taken := s.taken[Taken(s) := hash])
    case Clear(hash) => s.(calls := c.(cleared := c.cleared + {hash}))
    case Refer(hash, dir) => s.(calls := c.(referred := c.referred + {(hash, dir)}))
    case Spot(f) => s.(calls := c.(spotted := c.spotted + {f}))
    case Lookup(f) => s.(calls := c.(found := c.found + {f}))
    case Learn(hash, q) => s.(jobs := Record(s.jobs, {(hash, q)}), pending := s.pending - {(hash, q)})
    case Peek(name) => s.(calls := c.(peeked := c.peeked + {(name, db.mn[name])}))
    case Flush => s.(flushed := |s.history| - 1)
    case Register =>
      s.(jobs := s.jobs[s.nextJob := Job({}, {}, Registered)], nextJob := s.nextJob + 1,
         inputs := s.inputs[s.nextJob := s.history[s.flushed].bd.Keys])
    case Snapshot(j) => WithJob(s, j, s.jobs[j].(stage := Snapped(s.flushed, db)))
    case Scan(j) =>
      var job := s.jobs[j];
      WithJob(s, j, Job(job.hashes + ScanHashes(job.stage.snap, s.epoch), job.seqs + ScanSeqs(job.stage.snap, s.epoch),
                        Ready(job.stage.at, PeerFloor(db.md))))
    case Noise(j, hashes, seqs) =>
      WithJob(s, j, s.jobs[j].(hashes := s.jobs[j].hashes + hashes, seqs := s.jobs[j].seqs + seqs))
    case Drop(j, row) =>
      s.(history := PruneAll(FilterOf(s, j), s.history, row), cut := MaxCut(s.cut, s.jobs[j].stage.floor))
    case Decide(_, q) => s.(doomed := s.doomed + {q})
    case Install(q) => s.(history := LoseAll(s.history, q), doomed := s.doomed - {q})
    case End(j) => s.(jobs := s.jobs - {j})
    case Crash(k, e) =>
      var h := s.history[k];
      var n := if h.nextBlockseq.Some? then h.nextBlockseq.value else 0;
      s.(history := s.history[..k + 1], flushed := k, range := Range(n, n), epoch := e, jobs := map[], inputs := map[],
         calls := NOTHING, taken := map[], pending := {}, doomed := {})
  }

  function Next(s: State, a: Action): State
    requires Enabled(s, a, CODE)
  {
    if Writes(a) then Wrote(s, a) else Moved(s, a)
  }

  /** A step that changes no database. */
  predicate Quiet(a: Action) {
    a.Compare? || a.CopyRead? || a.Clear? || a.Refer? || a.Spot? || a.Lookup? || a.Learn? || a.Peek? || a.Flush?
    || a.Register? || a.Snapshot? || a.Scan? || a.Noise? || a.Decide? || a.End?
  }

  lemma QuietFrame(s: State, a: Action)
    requires Shaped(s) && Quiet(a) && CanMove(s, a, CODE)
    ensures var t := Moved(s, a);
            && t.history == s.history && t.cut == s.cut && t.epoch == s.epoch && t.supplied == s.supplied
            && (t.flushed == if a.Flush? then |s.history| - 1 else s.flushed)
            && (!a.Peek? ==> t.calls.peeked == s.calls.peeked) && (!a.CopyRead? ==> t.calls.copies == s.calls.copies)
  {
    hide CopyBlocks, MetadataOnly, BlockSafe, Refers, FileSeqs, LiveSeqs, ScanSeqs, ScanHashes, Visible, JudgedInTime,
         PeerFloor, Record, CanWrite, Wrote;
  }

  lemma WroteFrame(s: State, a: Action)
    requires Shaped(s) && Writes(a) && CanWrite(s, a, CODE)
    ensures var t := Wrote(s, a);
            && t.cut == s.cut && t.flushed == s.flushed && t.epoch == s.epoch && t.calls == s.calls
            && |t.history| == |s.history| + 1 && t.history[..|s.history|] == s.history
  {
    hide PutFile, CommitCopy, CompleteFile, StageFile, StoreInline, ShareBlock, NewBlock, Separated, CanLink,
         Supplies, ValidName, ValidInfo, SeqsIn, FolderModel.GcInbox, CanMove, Moved;
  }

  /** Fewer premises allow more steps. */
  lemma Weaken(s: State, a: Action, pre: Premises)
    requires Enabled(s, a, pre)
    ensures Enabled(s, a, CODE)
  {}

  ghost predicate Runs(s: State, acts: seq<Action>, t: State, pre: Premises)
    decreases |acts|
  {
    if acts == [] then t == s
    else Enabled(s, acts[0], pre) && Runs(Next(s, acts[0]), acts[1..], t, pre)
  }

  function Initial(epoch: Epoch): State {
    State([EmptyDb()], 0, Range(0, 0), epoch, map[], 1, map[], map[], map[], 0, NOTHING, map[], {}, {})
  }
}
