/**
  Collection safety over all runs: no data row that a committed entry, or a staged entry of the current
  epoch, still refers to is ever dropped.
 */
module FolderGc {
  import opened Prelude
  import opened Files
  import opened VersionVectors
  import opened StoreKeys
  import opened FolderModel
  import opened FolderRuns
  import FolderContent

  // ---------------------------------------------------------------- what each operation refers to

  lemma SeqsIff(f: FileInfo, q: nat)
    ensures q in SeqsOf(f) <==> exists i :: 0 <= i < |f.blocks| && f.blocks[i].blockseq == Some(q)
  {
    if q in SeqsOf(f) {
      var b :| b in f.blocks && b.blockseq.Some? && b.blockseq.value == q;
    }
    if i :| 0 <= i < |f.blocks| && f.blocks[i].blockseq == Some(q) {
      assert f.blocks[i] in f.blocks;
    }
  }

  lemma CarrySeqs(f: FileInfo, prior: FileInfo)
    ensures SeqsOf(f.(blocks := Carry(f.blocks, prior.blocks))) <= SeqsOf(f) + SeqsOf(prior)
  {
    var g := f.(blocks := Carry(f.blocks, prior.blocks));
    forall q | q in SeqsOf(g) ensures q in SeqsOf(f) + SeqsOf(prior) {
      SeqsIff(g, q);
      var i :| 0 <= i < |g.blocks| && g.blocks[i].blockseq == Some(q);
      assert g.blocks[i] == CarryOne(f.blocks[i], prior.blocks);
      assert f.blocks[i] in f.blocks;
      var src := FirstPointed(prior.blocks, f.blocks[i].hash);
      if !f.blocks[i].HasPointer() && src.Some? {
        assert src.value in prior.blocks && src.value.blockseq == Some(q);
      }
    }
  }

  lemma WireSeqs(f: WireInfo)
    ensures SeqsOf(FromWire(f)) == {}
  {
    forall q ensures q !in SeqsOf(FromWire(f)) { SeqsIff(FromWire(f), q); }
  }

  lemma CommitSeqs(db: Db, name: Name, stored: FileInfo, e: Epoch)
    ensures LiveSeqs(Commit(db, name, stored), e) <= LiveSeqs(db, e) + SeqsOf(stored)
  {
    var t := Commit(db, name, stored);
    var c := Carried(db, name, stored);
    if name in db.mn { CarrySeqs(stored, db.mn[name]); }
    assert SeqsOf(t.mn[name]) == SeqsOf(c);
    forall q | q in LiveSeqs(t, e) ensures q in LiveSeqs(db, e) + SeqsOf(stored) {
      if n :| n in t.mn && q in SeqsOf(t.mn[n]) {
        if n != name { assert t.mn[n] == db.mn[n]; }
      }
    }
  }

  lemma SmallerInbox(db: Db, t: Db, e: Epoch)
    requires t.mn == db.mn && t.mi.Keys <= db.mi.Keys && forall k | k in t.mi :: t.mi[k] == db.mi[k]
    ensures LiveSeqs(t, e) <= LiveSeqs(db, e)
  {
    forall q | q in LiveSeqs(t, e) ensures q in LiveSeqs(db, e) {
      if n :| n in t.mn && q in SeqsOf(t.mn[n]) {
        assert q in SeqsOf(db.mn[n]);
      } else {
        var k :| k in t.mi && k.0 == e && q in SeqsOf(t.mi[k]);
        assert k in db.mi && q in SeqsOf(db.mi[k]);
      }
    }
  }

  lemma FewerFiles(db: Db, t: Db, e: Epoch)
    requires t.mi == db.mi && t.mn.Keys <= db.mn.Keys && forall n | n in t.mn :: t.mn[n] == db.mn[n]
    ensures LiveSeqs(t, e) <= LiveSeqs(db, e)
  {
    forall q | q in LiveSeqs(t, e) ensures q in LiveSeqs(db, e) {
      if n :| n in t.mn && q in SeqsOf(t.mn[n]) {
        assert n in db.mn && q in SeqsOf(db.mn[n]);
      }
    }
  }

  lemma PutSeqs(db: Db, f: WireInfo, e: Epoch)
    ensures LiveSeqs(PutFile(db, f), e) <= LiveSeqs(db, e)
  {
    WireSeqs(f);
    CommitSeqs(db, f.name, FromWire(f), e);
  }

  lemma CopySeqs(db: Db, f: WireInfo, blocks: seq<Block>, e: Epoch)
    ensures LiveSeqs(CommitCopy(db, f, blocks), e) <= LiveSeqs(db, e) + SeqsIn(blocks)
    ensures CommitCopy(db, f, blocks).bd == db.bd
  {
    hide LiveSeqs, Carried;
    var stored := FromWire(f).(blocks := blocks);
    var refs := set p | p in Separated(blocks) :: (p.0, f.name);
    var mid := db.(mr := db.mr + refs);
    SmallerInbox(db, mid, e);
    CommitSeqs(mid, f.name, stored, e);
    assert SeqsOf(stored) == SeqsIn(blocks);
  }

  /** Every number that a conflict copy takes over will be recorded. */
  lemma SeparatedSeqs(f: WireInfo, blocks: seq<Block>, owner: FolderContent.Owners, supplied: FolderContent.Supply)
    requires FolderContent.FileOk(FromWire(f).(blocks := blocks), owner, supplied)
    ensures SeqsIn(blocks) <= (set p | p in Separated(blocks) :: p.1)
  {
    forall q | q in SeqsIn(blocks) ensures q in (set p | p in Separated(blocks) :: p.1) {
      var b :| b in blocks && b.blockseq.Some? && b.blockseq.value == q;
      var i :| 0 <= i < |blocks| && blocks[i] == b;
      assert FolderContent.BlockOk(FromWire(f).(blocks := blocks).blocks[i], owner, supplied);
      assert (b.hash, q) in Separated(blocks);
    }
  }

  lemma StageSeqs(db: Db, epoch: Epoch, f: WireInfo, e: Epoch)
    ensures LiveSeqs(StageFile(db, epoch, f), e) <= LiveSeqs(db, e)
  {
    WireSeqs(f);
    var t := StageFile(db, epoch, f);
    forall q | q in LiveSeqs(t, e) ensures q in LiveSeqs(db, e) {
      if n :| n in t.mn && q in SeqsOf(t.mn[n]) {
      } else {
        var k :| k in t.mi && k.0 == e && q in SeqsOf(t.mi[k]);
        assert k != (epoch, f.name) && t.mi[k] == db.mi[k];
      }
    }
  }

  lemma PromoteSeqs(db: Db, e: Epoch, name: Name)
    requires (e, name) in db.mi
    ensures LiveSeqs(PromoteStaged(db, e, name), e) <= LiveSeqs(db, e)
  {
    var staged := db.mi[(e, name)];
    var mid := db.(mi := db.mi - {(e, name)});
    SmallerInbox(db, mid, e);
    assert SeqsOf(staged) <= LiveSeqs(db, e) by {
      forall q | q in SeqsOf(staged) ensures q in LiveSeqs(db, e) {
        var k := (e, name);
        assert k in db.mi && k.0 == e && q in SeqsOf(db.mi[k]);
      }
    }
    CommitSeqs(mid, name, staged, e);
  }

  function Opt(q: Option<nat>): set<nat> { if q.Some? then {q.value} else {} }

  lemma PointSeqs(f: FileInfo, hash: Hash, q: Option<nat>, d: Option<Bytes>)
    ensures SeqsOf(f.(blocks := Point(f.blocks, hash, q, d))) <= SeqsOf(f) + Opt(q)
  {
    var g := f.(blocks := Point(f.blocks, hash, q, d));
    forall x | x in SeqsOf(g) ensures x in SeqsOf(f) + Opt(q) {
      SeqsIff(g, x);
      var i :| 0 <= i < |g.blocks| && g.blocks[i].blockseq == Some(x);
      assert f.blocks[i] in f.blocks;
    }
  }

  lemma LinkSeqs(db: Db, slot: Slot, name: Name, hash: Hash, q: Option<nat>, d: Option<Bytes>, e: Epoch)
    requires HasSlot(db, slot, name)
    ensures LiveSeqs(Link(db, slot, name, hash, q, d), e) <= LiveSeqs(db, e) + Opt(q)
  {
    var t := Link(db, slot, name, hash, q, d);
    PointSeqs(Entry(db, slot, name), hash, q, d);
    forall x | x in LiveSeqs(t, e) ensures x in LiveSeqs(db, e) + Opt(q) {
      if n :| n in t.mn && x in SeqsOf(t.mn[n]) {
        if n != name || slot.Staged? { assert t.mn[n] == db.mn[n]; }
      } else {
        var k :| k in t.mi && k.0 == e && x in SeqsOf(t.mi[k]);
        if slot.Staged? && k == (slot.epoch, name) { } else { assert t.mi[k] == db.mi[k]; }
      }
    }
  }

  lemma FewerFileSeqs(db: Db, t: Db)
    requires t.mn.Keys <= db.mn.Keys && forall n | n in t.mn :: t.mn[n] == db.mn[n]
    ensures FileSeqs(t) <= FileSeqs(db)
  {
    forall q | q in FileSeqs(t) ensures q in FileSeqs(db) {
      var n :| n in t.mn && q in SeqsOf(t.mn[n]);
      assert n in db.mn && q in SeqsOf(db.mn[n]);
    }
  }

  lemma PruneSeqs(f: Filter, db: Db, row: Row, e: Epoch)
    ensures LiveSeqs(Pruned(f, db, row), e) <= LiveSeqs(db, e)
    ensures FileSeqs(Pruned(f, db, row)) <= FileSeqs(db)
  {
    var t := Pruned(f, db, row);
    FewerFileSeqs(db, t);
    hide SeqsOf;
    match row
    case InboxRow(_, _) => SmallerInbox(db, t, e);
    case FileRow(_) => FewerFiles(db, t, e);
    case _ => SmallerInbox(db, t, e);
  }

  // ---------------------------------------------------------------- the invariant

  /** The numbers that matter in an entry of the history: a crash does not bring staged files back into use. */
  function Needed(s: State, k: nat): set<nat>
    requires k < |s.history|
  {
    if k == |s.history| - 1 then LiveSeqs(s.history[k], s.epoch) else FileSeqs(s.history[k])
  }

  /** Everything needed has its data, and no filter has judged it dead. */
  predicate Safe(s: State, k: nat)
    requires k < |s.history|
  {
    Needed(s, k) <= s.history[k].bd.Keys && Needed(s, k) !! s.doomed
  }

  predicate Sees(s: State, at: nat, rows: set<nat>, known: set<nat>) {
    forall k | at <= k < |s.history| :: Needed(s, k) * rows <= known
  }

  /** Of its rows, a job knows every number needed since the flush before its snapshot, or is about to be told. */
  predicate JobOk(s: State, job: Job, rows: set<nat>) {
    match job.stage
    case Registered => true
    case Snapped(at, snap) => at <= s.flushed && Sees(s, at, rows, ScanSeqs(snap, s.epoch) + job.seqs + PendingSeqs(s))
    case Ready(at, _) => at <= s.flushed && Sees(s, at, rows, job.seqs + PendingSeqs(s))
  }

  predicate Inv(s: State) {
    && Shaped(s)
    && (forall k | s.flushed <= k < |s.history| :: Safe(s, k))
    && forall j | j in s.jobs :: JobOk(s, s.jobs[j], Inputs(s, j))
  }

  const STRICT: Premises := Premises(true, true, true, true, true, true, true, true)

  /** A batch after which at most `extra` more is needed, all of it there, not judged dead, and known to the jobs. */
  lemma Append(s: State, db: Db, extra: set<nat>, t: State)
    requires Inv(s) && t.history == s.history + [db] && t.epoch == s.epoch && s.flushed <= t.flushed < |t.history|
    requires t.jobs == s.jobs && t.inputs == s.inputs && t.doomed == s.doomed
    requires PendingSeqs(s) <= PendingSeqs(t) && Told(t, extra)
    requires LiveSeqs(db, s.epoch) <= LiveSeqs(Now(s), s.epoch) + extra
    requires Now(s).bd.Keys + extra <= db.bd.Keys && extra !! s.doomed
    ensures Inv(t)
  {
    hide LiveSeqs, FileSeqs, ScanSeqs, PendingSeqs;
    var last := |s.history| - 1;
    assert Safe(s, last);
    forall k | 0 <= k < |s.history| ensures Needed(t, k) <= Needed(s, k) && t.history[k] == s.history[k] {
      FilesLive(s.history[k], s.epoch);
    }
    forall k | t.flushed <= k < |t.history| ensures Safe(t, k) {
      if k < |s.history| { assert Safe(s, k); } else { assert Needed(t, k) == LiveSeqs(db, s.epoch); }
    }
    forall j | j in t.jobs ensures JobOk(t, t.jobs[j], Inputs(t, j)) {
      var job := s.jobs[j];
      assert JobOk(s, job, Inputs(s, j));
      if !job.stage.Registered? {
        var known := if job.stage.Ready? then job.seqs else ScanSeqs(job.stage.snap, s.epoch) + job.seqs;
        assert extra * Inputs(t, j) <= Known(t, j);
        SeesOn(s, db, extra, t, job.stage.at, Inputs(s, j), known);
      }
    }
  }

  /** What is about to be recorded is as good as known. */
  lemma PendingTold(t: State, extra: set<nat>)
    requires extra <= PendingSeqs(t)
    ensures Told(t, extra)
  {
    hide PendingSeqs, ScanSeqs;
  }

  lemma FilesLive(db: Db, e: Epoch)
    ensures FileSeqs(db) <= LiveSeqs(db, e)
  {}

  lemma SeesOn(s: State, db: Db, extra: set<nat>, t: State, at: nat, rows: set<nat>, known: set<nat>)
    requires Shaped(s) && t.history == s.history + [db] && t.epoch == s.epoch && at < |s.history|
    requires PendingSeqs(s) <= PendingSeqs(t) && extra * rows <= known + PendingSeqs(t)
    requires LiveSeqs(db, s.epoch) <= LiveSeqs(Now(s), s.epoch) + extra
    requires forall k | 0 <= k < |s.history| :: Needed(t, k) <= Needed(s, k)
    requires Sees(s, at, rows, known + PendingSeqs(s))
    ensures Sees(t, at, rows, known + PendingSeqs(t))
  {
    hide LiveSeqs, FileSeqs, PendingSeqs;
    var last := |s.history| - 1;
    forall k | at <= k < |t.history| ensures Needed(t, k) * rows <= known + PendingSeqs(t) {
      if k < |s.history| {
        assert Needed(t, k) * rows <= Needed(s, k) * rows <= known + PendingSeqs(s);
      } else {
        assert Needed(s, last) * rows <= known + PendingSeqs(s);
        assert Needed(t, k) * rows <= Needed(s, last) * rows + extra * rows;
      }
    }
  }

  /** Steps that write one batch and link nothing. */
  lemma WriteKeeps(s: State, db: Db)
    requires Inv(s) && LiveSeqs(db, s.epoch) <= LiveSeqs(Now(s), s.epoch)
    requires Now(s).bd.Keys <= db.bd.Keys
    ensures Inv(Write(s, db))
  {
    hide Inv, LiveSeqs, ScanSeqs;
    InvNow(s);
    PendingTold(Write(s, db), {});
    Append(s, db, {}, Write(s, db));
  }

  lemma StageKeeps(s: State, f: WireInfo)
    requires Inv(s)
    ensures Inv(Write(s, StageFile(Now(s), s.epoch, f)))
  {
    StageSeqs(Now(s), s.epoch, f, s.epoch);
    WriteKeeps(s, StageFile(Now(s), s.epoch, f));
  }

  lemma PromoteKeeps(s: State, name: Name)
    requires Inv(s) && (s.epoch, name) in Now(s).mi
    ensures Inv(Write(s, PromoteStaged(Now(s), s.epoch, name)))
  {
    PromoteSeqs(Now(s), s.epoch, name);
    WriteKeeps(s, PromoteStaged(Now(s), s.epoch, name));
  }

  lemma CompleteKeeps(s: State, name: Name, expected: Option<Vector>)
    requires Inv(s) && CompleteFile(Now(s), s.epoch, name, expected).Promoted?
    ensures Inv(Write(s, CompleteFile(Now(s), s.epoch, name, expected).db))
  {
    hide Inv, PromoteStaged, Files.Complete;
    InvNow(s);
    PromoteKeeps(s, name);
  }

  lemma CopyKeeps(s: State, c: Captured)
    requires Enabled(s, Copy(c), STRICT) && Inv(s) && FolderContent.ContentInv(s)
    ensures Inv(Next(s, Copy(c)))
  {
    hide Inv, LiveSeqs, ScanSeqs, CommitCopy, Separated, SeqsIn, FolderContent.ContentOk, FolderContent.FileOk;
    CopySeqs(Now(s), c.f, c.blocks, s.epoch);
    SeparatedSeqs(c.f, c.blocks, s.owner, s.supplied);
    PendingTold(Next(s, Copy(c)), SeqsIn(c.blocks));
    Append(s, CommitCopy(Now(s), c.f, c.blocks), SeqsIn(c.blocks), Next(s, Copy(c)));
  }

  lemma InlineSeqs(db: Db, e: Epoch, name: Name, hash: Hash, data: Bytes)
    requires CanLink(db, Some(e), name, hash)
    ensures var t := StoreInline(db, Some(e), name, hash, data);
            LiveSeqs(t, e) <= LiveSeqs(db, e) && t.bd == db.bd
  {
    hide LiveSeqs, Mentions, Point;
    LinkSeqs(db, FindEntry(db, Some(e), name).value, name, hash, None, Some(data), e);
  }

  lemma ShareSeqs(db: Db, e: Epoch, name: Name, hash: Hash, dir: Name, q: nat)
    requires CanLink(db, Some(e), name, hash)
    ensures var t := ShareBlock(db, Some(e), name, hash, dir, q);
            LiveSeqs(t, e) <= LiveSeqs(db, e) + {q} && t.bd == db.bd
  {
    hide LiveSeqs, Dirname, Mentions, Point;
    var mb := if dir != Dirname(name) then db.mb[(Dirname(name), hash) := q] else db.mb;
    var mid := db.(mb := mb, mr := db.mr + {(hash, name)});
    SmallerInbox(db, mid, e);
    LinkSeqs(mid, FindEntry(db, Some(e), name).value, name, hash, Some(q), None, e);
  }

  lemma NewSeqs(db: Db, e: Epoch, name: Name, hash: Hash, data: Bytes, q: nat)
    requires CanLink(db, Some(e), name, hash)
    ensures var t := NewBlock(db, Some(e), name, hash, data, q);
            LiveSeqs(t, e) <= LiveSeqs(db, e) + {q} && t.bd.Keys == db.bd.Keys + {q}
  {
    hide LiveSeqs, Dirname, Mentions, Point;
    var mid := db.(bd := db.bd[q := data], mb := db.mb[(Dirname(name), hash) := q], mr := db.mr + {(hash, name)});
    SmallerInbox(db, mid, e);
    LinkSeqs(mid, FindEntry(db, Some(e), name).value, name, hash, Some(q), None, e);
  }

  lemma ShareKeeps(s: State, name: Name, f: Sighting)
    requires Enabled(s, Share(name, f), STRICT) && Inv(s)
    ensures Inv(Next(s, Share(name, f)))
  {
    hide Inv, LiveSeqs, ScanSeqs, ShareBlock, Mentions;
    ShareSeqs(Now(s), s.epoch, name, f.hash, f.dir, f.seqno);
    var t := Next(s, Share(name, f));
    assert (f.hash, f.seqno) in t.pending;
    PendingTold(t, {f.seqno});
    Append(s, ShareBlock(Now(s), Some(s.epoch), name, f.hash, f.dir, f.seqno), {f.seqno}, t);
  }

  /** Taking a number leaves all entries alone; a refill adds one that differs in the counter only. */
  lemma NumberKeeps(s: State, hash: Hash)
    requires Inv(s)
    ensures Inv(Take(s, hash).(taken := s.taken[Taken(s) := hash]))
  {
    hide LiveSeqs, FileSeqs, ScanSeqs, PendingSeqs;
    var a, t := Allocate(s.range, Now(s).nextBlockseq), Take(s, hash).(taken := s.taken[Taken(s) := hash]);
    PendingFrame(s, t);
    if a.refilled {
      var db := Now(s).(nextBlockseq := a.nextBlockseq);
      SmallerInbox(Now(s), db, s.epoch);
      PendingTold(t, {});
      Append(s, db, {}, t);
    } else {
      SameHistory(s, t);
    }
  }

  lemma PendingFrame(s: State, t: State)
    requires s.pending <= t.pending
    ensures PendingSeqs(s) <= PendingSeqs(t)
  {}

  /** Nothing that the invariant speaks of has changed. */
  lemma SameHistory(s: State, t: State)
    requires Inv(s) && t.history == s.history && s.flushed <= t.flushed < |t.history| && t.epoch == s.epoch
    requires t.jobs == s.jobs && t.inputs == s.inputs && t.pending == s.pending && t.doomed == s.doomed
    ensures Inv(t)
  {
    hide LiveSeqs, FileSeqs, ScanSeqs;
    assert PendingSeqs(t) == PendingSeqs(s);
    hide PendingSeqs;
    forall k | t.flushed <= k < |t.history| ensures Safe(t, k) { assert Safe(s, k); }
    forall j | j in t.jobs ensures JobOk(t, t.jobs[j], Inputs(t, j)) {
      JobStays(s, t, s.jobs[j], s.jobs[j], Inputs(s, j));
    }
  }

  /** A job that knows as much as before. */
  lemma JobStays(s: State, t: State, job: Job, more: Job, rows: set<nat>)
    requires JobOk(s, job, rows) && t.history == s.history && t.epoch == s.epoch && s.flushed <= t.flushed
    requires more.stage == job.stage && job.seqs + PendingSeqs(s) <= more.seqs + PendingSeqs(t)
    ensures JobOk(t, more, rows)
  {
    hide LiveSeqs, FileSeqs, ScanSeqs, PendingSeqs;
    if !job.stage.Registered? {
      forall k | job.stage.at <= k < |t.history| ensures Needed(t, k) == Needed(s, k) {}
    }
  }

  lemma InvNow(s: State)
    requires Inv(s)
    ensures Shaped(s) && LiveSeqs(Now(s), s.epoch) <= Now(s).bd.Keys && LiveSeqs(Now(s), s.epoch) !! s.doomed
  {
    hide LiveSeqs, FileSeqs, ScanSeqs;
    assert Safe(s, |s.history| - 1);
  }

  lemma FreshKeeps(s: State, name: Name, hash: Hash, data: Bytes, q: nat)
    requires Enabled(s, Fresh(name, hash, data, q), CODE) && Inv(s) && FolderContent.TakenOk(s)
    ensures Inv(Next(s, Fresh(name, hash, data, q)))
  {
    hide Inv, LiveSeqs, ScanSeqs, NewBlock, Mentions;
    InvNow(s);
    NewSeqs(Now(s), s.epoch, name, hash, data, q);
    var t := Next(s, Fresh(name, hash, data, q));
    assert (hash, q) in t.pending;
    PendingTold(t, {q});
    Append(s, NewBlock(Now(s), Some(s.epoch), name, hash, data, q), {q}, t);
  }

  /** What was pending is now with every job. */
  lemma LearnKeeps(s: State, hash: Hash, q: nat)
    requires Enabled(s, Learn(hash, q), CODE) && Inv(s)
    ensures Inv(Next(s, Learn(hash, q)))
  {
    hide LiveSeqs, FileSeqs, ScanSeqs;
    var t := Next(s, Learn(hash, q));
    forall k | t.flushed <= k < |t.history| ensures Safe(t, k) { assert Safe(s, k); }
    forall j | j in t.jobs ensures JobOk(t, t.jobs[j], Inputs(t, j)) {
      assert q in t.jobs[j].seqs by { assert (hash, q) in {(hash, q)}; }
      assert s.jobs[j].seqs + PendingSeqs(s) <= t.jobs[j].seqs + PendingSeqs(t);
      JobStays(s, t, s.jobs[j], t.jobs[j], Inputs(s, j));
    }
  }

  lemma JobKeeps(s: State, t: State, j: nat)
    requires Inv(s) && t == s.(jobs := t.jobs, inputs := t.inputs, nextJob := t.nextJob)
    requires j in t.jobs && JobOk(s, t.jobs[j], Inputs(t, j))
    requires forall i | i in t.jobs && i != j :: i in s.jobs && t.jobs[i] == s.jobs[i] && Inputs(t, i) == Inputs(s, i)
    ensures Inv(t)
  {
    hide LiveSeqs, FileSeqs, ScanSeqs;
    assert PendingSeqs(t) == PendingSeqs(s);
    forall k | t.flushed <= k < |t.history| ensures Safe(t, k) { assert Safe(s, k); }
    forall i | i in t.jobs ensures JobOk(t, t.jobs[i], Inputs(t, i)) {
      assert JobOk(s, t.jobs[i], Inputs(t, i));
      JobStays(s, t, t.jobs[i], t.jobs[i], Inputs(t, i));
    }
  }

  lemma SnapshotKeeps(s: State, j: nat)
    requires Enabled(s, Snapshot(j), STRICT) && Inv(s)
    ensures Inv(Next(s, Snapshot(j)))
  {
    hide LiveSeqs, FileSeqs, ScanSeqs, PendingSeqs;
    var t := Next(s, Snapshot(j));
    forall k | s.flushed <= k < |s.history| ensures Needed(s, k) * Inputs(s, j) <= Visible(s, j) {}
    JobKeeps(s, t, j);
  }

  lemma ScanKeeps(s: State, j: nat)
    requires Enabled(s, Scan(j), CODE) && Inv(s)
    ensures Inv(Next(s, Scan(j)))
  {
    hide LiveSeqs, FileSeqs, ScanSeqs, ScanHashes, PeerFloor, PendingSeqs;
    assert JobOk(s, s.jobs[j], Inputs(s, j));
    JobKeeps(s, Next(s, Scan(j)), j);
  }

  lemma NoiseKeeps(s: State, j: nat, hashes: set<Hash>, seqs: set<nat>)
    requires Inv(s) && j in s.jobs
    ensures Inv(WithJob(s, j, s.jobs[j].(hashes := s.jobs[j].hashes + hashes, seqs := s.jobs[j].seqs + seqs)))
  {
    hide LiveSeqs, FileSeqs, ScanSeqs, PendingSeqs;
    var more := s.jobs[j].(hashes := s.jobs[j].hashes + hashes, seqs := s.jobs[j].seqs + seqs);
    JobStays(s, s, s.jobs[j], more, Inputs(s, j));
    JobKeeps(s, WithJob(s, j, more), j);
  }

  /** A number that a job judges dead, with nothing of it pending, is not needed anywhere. */
  lemma NotNeeded(s: State, j: nat, q: nat, k: nat)
    requires Inv(s) && j in s.jobs && s.jobs[j].stage.Ready? && q in Inputs(s, j)
    requires q !in s.jobs[j].seqs && JudgedInTime(s, j, q) && s.flushed <= k < |s.history|
    ensures q !in Needed(s, k)
  {
    hide LiveSeqs, FileSeqs, ScanSeqs, PendingSeqs;
    assert JobOk(s, s.jobs[j], Inputs(s, j));
    assert Needed(s, k) * Inputs(s, j) <= s.jobs[j].seqs + PendingSeqs(s);
    assert q !in Needed(s, k) * Inputs(s, j);
  }

  /** Rows go that are needed nowhere; then no more is needed than before. */
  lemma LossKeeps(s: State, t: State)
    requires Inv(s) && t == s.(history := t.history, cut := t.cut, doomed := t.doomed) && t.doomed <= s.doomed
    requires |t.history| == |s.history|
    requires forall k | 0 <= k < |s.history| :: Needed(t, k) <= Needed(s, k)
    requires forall k | s.flushed <= k < |s.history| :: s.history[k].bd.Keys * Needed(s, k) <= t.history[k].bd.Keys
    ensures Inv(t)
  {
    hide LiveSeqs, FileSeqs, ScanSeqs;
    assert PendingSeqs(t) == PendingSeqs(s);
    hide PendingSeqs;
    forall k | t.flushed <= k < |t.history| ensures Safe(t, k) { assert Safe(s, k); }
    forall i | i in t.jobs ensures JobOk(t, t.jobs[i], Inputs(t, i)) {
      assert JobOk(s, s.jobs[i], Inputs(s, i));
      var job := s.jobs[i];
      if !job.stage.Registered? {
        forall k | job.stage.at <= k < |t.history| ensures Needed(t, k) <= Needed(s, k) {}
      }
    }
  }

  lemma DropKeeps(s: State, j: nat, row: Row)
    requires Enabled(s, Drop(j, row), STRICT) && Inv(s)
    ensures Inv(Next(s, Drop(j, row)))
  {
    hide Inv, LiveSeqs, FileSeqs, PendingSeqs, Pruned;
    var f, t := FilterOf(s, j), Next(s, Drop(j, row));
    forall k | 0 <= k < |s.history| ensures Needed(t, k) <= Needed(s, k) {
      PruneSeqs(f, s.history[k], row, s.epoch);
    }
    forall k | s.flushed <= k < |s.history| ensures s.history[k].bd.Keys * Needed(s, k) <= t.history[k].bd.Keys {
      PruneData(f, s.history[k], row);
      if row.DataRow? && row.seqno !in s.jobs[j].seqs { NotNeeded(s, j, row.seqno, k); }
    }
    LossKeeps(s, t);
  }

  lemma PruneData(f: Filter, db: Db, row: Row)
    ensures Pruned(f, db, row).bd.Keys >= db.bd.Keys - if row.DataRow? && row.seqno !in f.seqs then {row.seqno} else {}
  {}

  lemma DecideKeeps(s: State, j: nat, q: nat)
    requires Enabled(s, Decide(j, q), STRICT) && Inv(s)
    ensures Inv(Next(s, Decide(j, q)))
  {
    hide LiveSeqs, FileSeqs, ScanSeqs;
    var t := Next(s, Decide(j, q));
    assert PendingSeqs(t) == PendingSeqs(s);
    forall k | t.flushed <= k < |t.history| ensures Safe(t, k) {
      assert Safe(s, k) && Needed(t, k) == Needed(s, k);
      NotNeeded(s, j, q, k);
    }
    forall i | i in t.jobs ensures JobOk(t, t.jobs[i], Inputs(t, i)) {
      JobStays(s, t, s.jobs[i], s.jobs[i], Inputs(s, i));
    }
  }

  lemma InstallKeeps(s: State, q: nat)
    requires Enabled(s, Install(q), CODE) && Inv(s)
    ensures Inv(Next(s, Install(q)))
  {
    hide LiveSeqs, FileSeqs, ScanSeqs, PendingSeqs;
    var t := Next(s, Install(q));
    forall k | 0 <= k < |s.history| ensures Needed(t, k) == Needed(s, k) {
      SameFiles(s.history[k], t.history[k], s.epoch);
    }
    forall k | s.flushed <= k < |s.history| ensures s.history[k].bd.Keys * Needed(s, k) <= t.history[k].bd.Keys {
      assert Safe(s, k);
    }
    LossKeeps(s, t);
  }

  lemma SameFiles(db: Db, t: Db, e: Epoch)
    requires t.mn == db.mn && t.mi == db.mi
    ensures LiveSeqs(t, e) == LiveSeqs(db, e) && FileSeqs(t) == FileSeqs(db)
  {}

  lemma FlushKeeps(s: State)
    requires Inv(s)
    ensures Inv(s.(flushed := |s.history| - 1))
  {
    hide Inv, LiveSeqs, ScanSeqs;
    InvNow(s);
    SameHistory(s, s.(flushed := |s.history| - 1));
  }

  lemma CrashKeeps(s: State, k: nat, e: Epoch)
    requires Enabled(s, Crash(k, e), STRICT) && Inv(s)
    ensures Inv(Next(s, Crash(k, e)))
  {
    hide StagedSeqs, FileSeqs, ScanSeqs;
    var t := Next(s, Crash(k, e));
    assert Safe(s, k) && t.history[k] == s.history[k];
    assert FileSeqs(s.history[k]) <= Needed(s, k);
    assert Needed(t, k) == FileSeqs(s.history[k]) + StagedSeqs(s.history[k], e);
  }

  lemma WriterKeeps(s: State, a: Action)
    requires Shaped(s) && Writes(a) && CanWrite(s, a, STRICT) && Inv(s) && FolderContent.ContentInv(s)
    ensures CanWrite(s, a, CODE) && Inv(Wrote(s, a))
  {
    hide Inv, LiveSeqs, ScanSeqs, PutFile, CommitCopy, PromoteStaged, Told, StageFile, StoreInline, ShareBlock,
         NewBlock, CompleteFile, ValidName, ValidInfo, CanLink, Supplies, SeqsIn, Separated, FolderModel.GcInbox,
         FolderContent.ContentInv, CanMove, Moved;
    match a
    case Stage(f) => StageKeeps(s, f);
    case Complete(name, expected) => CompleteKeeps(s, name, expected);
    case Metadata(f) => PutKeeps(s, f);
    case Resolve(f) => PutKeeps(s, f);
    case Copy(c) => CopyKeeps(s, c);
    case Inline(name, hash, data) => InlineKeeps(s, name, hash, data);
    case Fresh(name, hash, data, q) =>
      InvTaken(s);
      FreshKeeps(s, name, hash, data, q);
    case Share(name, f) => ShareKeeps(s, name, f);
    case Restore(name, f) => RestoreKeeps(s, name, f);
    case LateComplete(name, _, _) => PromoteKeeps(s, name);
    case GcInbox => OldInboxKeeps(s);
    case Peer(d, reached) => PeerKeeps(s, d, reached);
  }

  lemma InvTaken(s: State)
    requires FolderContent.ContentInv(s)
    ensures FolderContent.TakenOk(s)
  {}

  lemma OtherKeeps(s: State, a: Action)
    requires Shaped(s) && !Writes(a) && CanMove(s, a, STRICT) && Inv(s)
    ensures CanMove(s, a, CODE) && Inv(Moved(s, a))
  {
    hide Inv, LiveSeqs, FileSeqs, ScanSeqs, ScanHashes, Visible, PendingSeqs, JudgedInTime, PeerFloor, PruneAll,
         LoseAll, Take, Taken, CopyBlocks, Record, MetadataOnly, BlockSafe, Refers, FilterOf, CanWrite, Wrote;
    match a
    case Number(hash) => NumberKeeps(s, hash);
    case Learn(hash, q) => LearnKeeps(s, hash, q);
    case Flush => FlushKeeps(s);
    case Register => RegisterKeeps(s);
    case Snapshot(j) => SnapshotKeeps(s, j);
    case Scan(j) => ScanKeeps(s, j);
    case Noise(j, hashes, seqs) => NoiseKeeps(s, j, hashes, seqs);
    case Drop(j, row) => DropKeeps(s, j, row);
    case Decide(j, q) => DecideKeeps(s, j, q);
    case Install(q) => InstallKeeps(s, q);
    case End(j) => EndKeeps(s, j);
    case Crash(k, e) => CrashKeeps(s, k, e);
    case Peek(_) => SameHistory(s, Moved(s, a));
    case Compare(_) => SameHistory(s, Moved(s, a));
    case CopyRead(_, _) => SameHistory(s, Moved(s, a));
    case Clear(_) => SameHistory(s, Moved(s, a));
    case Refer(_, _) => SameHistory(s, Moved(s, a));
    case Spot(_) => SameHistory(s, Moved(s, a));
    case Lookup(_) => SameHistory(s, Moved(s, a));
  }

  lemma Step(s: State, a: Action)
    requires Enabled(s, a, STRICT) && Inv(s) && FolderContent.ContentInv(s)
    ensures Enabled(s, a, CODE) && Inv(Next(s, a))
  {
    hide Inv, CanWrite, CanMove, Wrote, Moved, FolderContent.ContentInv;
    if Writes(a) { WriterKeeps(s, a); } else { OtherKeeps(s, a); }
  }

  lemma PutKeeps(s: State, f: WireInfo)
    requires Inv(s)
    ensures Inv(Write(s, PutFile(Now(s), f)))
  {
    PutSeqs(Now(s), f, s.epoch);
    WriteKeeps(s, PutFile(Now(s), f));
  }

  lemma InlineKeeps(s: State, name: Name, hash: Hash, data: Bytes)
    requires Enabled(s, Inline(name, hash, data), CODE) && Inv(s)
    ensures Inv(Next(s, Inline(name, hash, data)))
  {
    hide LiveSeqs, StoreInline;
    var db := StoreInline(Now(s), Some(s.epoch), name, hash, data);
    InlineSeqs(Now(s), s.epoch, name, hash, data);
    PendingTold(Next(s, Inline(name, hash, data)), {});
    Append(s, db, {}, Next(s, Inline(name, hash, data)));
  }

  lemma RestoreSeqs(db: Db, name: Name, f: FileInfo, e: Epoch)
    ensures LiveSeqs(db.(mn := db.mn[name := f]), e) <= LiveSeqs(db, e) + SeqsOf(f)
  {
    hide SeqsOf;
    var t := db.(mn := db.mn[name := f]);
    forall q | q in LiveSeqs(t, e) ensures q in LiveSeqs(db, e) + SeqsOf(f) {
      if n :| n in t.mn && q in SeqsOf(t.mn[n]) {
        if n != name { assert n in db.mn && q in SeqsOf(db.mn[n]); }
      }
    }
  }

  lemma RestoreKeeps(s: State, name: Name, f: FileInfo)
    requires Inv(s) && SeqsOf(f) <= Now(s).bd.Keys && SeqsOf(f) !! s.doomed && Told(s, SeqsOf(f))
    ensures Inv(Write(s, Now(s).(mn := Now(s).mn[name := f])))
  {
    hide LiveSeqs, FileSeqs, ScanSeqs, SeqsOf;
    var db := Now(s).(mn := Now(s).mn[name := f]);
    var t := Write(s, db);
    RestoreSeqs(Now(s), name, f, s.epoch);
    PendingFrame(s, t);
    forall j | j in t.jobs && !t.jobs[j].stage.Registered? ensures SeqsOf(f) * Inputs(t, j) <= Known(t, j) {
      assert SeqsOf(f) * Inputs(s, j) <= Known(s, j);
    }
    Append(s, db, SeqsOf(f), t);
  }

  lemma OldInboxKeeps(s: State)
    requires Inv(s)
    ensures Inv(Write(s, FolderModel.GcInbox(Now(s), s.epoch)))
  {
    SmallerInbox(Now(s), FolderModel.GcInbox(Now(s), s.epoch), s.epoch);
    WriteKeeps(s, FolderModel.GcInbox(Now(s), s.epoch));
  }

  lemma PeerKeeps(s: State, d: Device, reached: int)
    requires Inv(s)
    ensures Inv(Write(s, Now(s).(md := Now(s).md[d := reached])))
  {
    SmallerInbox(Now(s), Now(s).(md := Now(s).md[d := reached]), s.epoch);
    WriteKeeps(s, Now(s).(md := Now(s).md[d := reached]));
  }

  lemma RegisterKeeps(s: State)
    requires Shaped(s) && CanMove(s, Register, CODE) && Inv(s)
    ensures Inv(Moved(s, Register))
  {
    hide LiveSeqs, FileSeqs, ScanSeqs, PendingSeqs;
    JobKeeps(s, Moved(s, Register), s.nextJob);
  }

  lemma EndKeeps(s: State, j: nat)
    requires Inv(s)
    ensures Inv(s.(jobs := s.jobs - {j}))
  {
    hide LiveSeqs, FileSeqs, ScanSeqs;
    var t := s.(jobs := s.jobs - {j});
    assert PendingSeqs(t) == PendingSeqs(s);
    hide PendingSeqs;
    forall k | t.flushed <= k < |t.history| ensures Safe(t, k) { assert Safe(s, k); }
    forall i | i in t.jobs ensures JobOk(t, t.jobs[i], Inputs(t, i)) {
      JobStays(s, t, s.jobs[i], s.jobs[i], Inputs(s, i));
    }
  }

  lemma {:induction false} RunKeeps(s: State, acts: seq<Action>, t: State)
    requires Runs(s, acts, t, STRICT) && Inv(s) && FolderContent.ContentInv(s)
    ensures Inv(t)
    decreases |acts|
  {
    hide Inv, FolderContent.ContentInv, Enabled, Next;
    if acts != [] {
      Step(s, acts[0]);
      FolderContent.Step(s, acts[0]);
      RunKeeps(Next(s, acts[0]), acts[1..], t);
    }
  }

  // ---------------------------------------------------------------- what runs guarantee

  /** Every number in a committed entry has its data row. */
  predicate Kept(db: Db) { forall n | n in db.mn :: SeqsOf(db.mn[n]) <= db.bd.Keys }

  ghost predicate SafeUnder(pre: Premises) {
    forall e, acts, s | Runs(Initial(e), acts, s, pre) :: Shaped(s) && Kept(Now(s))
  }

  lemma InitialOk(e: Epoch)
    ensures Inv(Initial(e))
  {}

  /** No writer, crash or collector can make a committed entry, or a staged one of this epoch, dangle. */
  lemma CollectionIsSafe(e: Epoch, acts: seq<Action>, s: State)
    requires Runs(Initial(e), acts, s, STRICT)
    ensures Shaped(s) && Kept(Now(s))
    ensures forall k | k in Now(s).mi && k.0 == s.epoch :: SeqsOf(Now(s).mi[k]) <= Now(s).bd.Keys
  {
    InitialOk(e);
    FolderContent.InitialOk(e);
    RunKeeps(Initial(e), acts, s);
    InvNow(s);
    var db := Now(s);
    forall n | n in db.mn ensures SeqsOf(db.mn[n]) <= db.bd.Keys {
      assert SeqsOf(db.mn[n]) <= LiveSeqs(db, s.epoch);
    }
    forall k | k in db.mi && k.0 == s.epoch ensures SeqsOf(db.mi[k]) <= db.bd.Keys {
      assert SeqsOf(db.mi[k]) <= LiveSeqs(db, s.epoch);
    }
  }

  /**
    Under the premises a process may follow another in the same epoch, after a flush, and find its staged
    files; or at any time in an epoch that has none.
   */
  lemma RestartAllowed(e: Epoch, acts: seq<Action>, s: State, k: nat, next: Epoch)
    requires Runs(Initial(e), acts, s, STRICT) && Shaped(s) && s.flushed <= k < |s.history|
    requires (next == s.epoch && k == |s.history| - 1) || forall x | x in s.history[k].mi :: x.0 != next
    ensures Enabled(s, Crash(k, next), STRICT)
  {
    hide Runs;
    CollectionIsSafe(e, acts, s);
    forall q | q in StagedSeqs(s.history[k], next) ensures q in s.history[k].bd {
      var x :| x in s.history[k].mi && x.0 == next && q in SeqsOf(s.history[k].mi[x]);
      assert SeqsOf(Now(s).mi[x]) <= Now(s).bd.Keys;
    }
  }

  lemma StrictIsSafe()
    ensures SafeUnder(STRICT)
  {
    hide Runs, Kept;
    forall e, acts, s | Runs(Initial(e), acts, s, STRICT) ensures Shaped(s) && Kept(Now(s)) {
      CollectionIsSafe(e, acts, s);
    }
  }

  /** Runs under the premises are runs of the code. */
  lemma {:induction false} RunsWeaken(s: State, acts: seq<Action>, t: State, pre: Premises)
    requires Runs(s, acts, t, pre)
    ensures Runs(s, acts, t, CODE)
    decreases |acts|
  {
    hide Enabled, Next;
    if acts != [] {
      Weaken(s, acts[0], pre);
      RunsWeaken(Next(s, acts[0]), acts[1..], t, pre);
    }
  }

  /**
    The store refines a map from name and hash to content: under the premises a 32-byte hash reads
    as its data exactly when the committed entry has a pointer for it, and as not found otherwise.
   */
  lemma StoreRefinesContent(e: Epoch, acts: seq<Action>, s: State, name: Name, hash: Hash)
    requires Runs(Initial(e), acts, s, STRICT) && |hash| == HASH_LEN
    ensures Shaped(s)
    ensures name in Now(s).mn && FirstPointed(Now(s).mn[name].blocks, hash).Some?
            ==> hash in s.supplied && ReadBlock(Now(s), name, hash) == Data(s.supplied[hash])
    ensures !(name in Now(s).mn && FirstPointed(Now(s).mn[name].blocks, hash).Some?)
            ==> ReadBlock(Now(s), name, hash) == NotFound
  {
    CollectionIsSafe(e, acts, s);
    RunsWeaken(Initial(e), acts, s, STRICT);
    FolderContent.ReadsAgree(e, acts, s, name, hash);
    hide Runs, ReadBlock;
    var db := Now(s);
    if name in db.mn {
      var blocks := db.mn[name].blocks;
      var p := FirstPointed(blocks, hash);
      if p.Some? {
        var i :| 0 <= i < |blocks| && blocks[i] == p.value;
        if p.value.blockseq.Some? { assert p.value.blockseq.value in SeqsOf(db.mn[name]); }
        assert FolderContent.Resolvable(db.bd, blocks[i]);
      } else {
        assert !FolderContent.Available(db.bd, blocks, hash);
      }
    }
  }

  /** Every block of a complete committed file reads as its data. */
  lemma CompleteFilesRead(e: Epoch, acts: seq<Action>, s: State, name: Name, i: nat)
    requires Runs(Initial(e), acts, s, STRICT) && Shaped(s) && name in Now(s).mn
    requires Files.Complete(Now(s).mn[name].blocks) && i < |Now(s).mn[name].blocks|
    requires |Now(s).mn[name].blocks[i].hash| == HASH_LEN
    ensures var hash := Now(s).mn[name].blocks[i].hash;
            hash in s.supplied && ReadBlock(Now(s), name, hash) == Data(s.supplied[hash])
  {
    hide Runs, ReadBlock;
    StoreRefinesContent(e, acts, s, name, Now(s).mn[name].blocks[i].hash);
  }
}
