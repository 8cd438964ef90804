/**
  The sequence index over all runs: `ms` and the entries' sequences are mutual inverses, in every
  state a crash can fall back to, above the highest floor that was ever pruned with.
 */
module FolderIndex {
  import opened Prelude
  import opened Files
  import opened VersionVectors
  import opened StoreKeys
  import opened FolderModel
  import opened FolderRuns

  predicate Bounded(db: Db) {
    && (forall n | n in db.mn :: 1 <= db.mn[n].sequence <= db.maxSequence)
    && forall q | q in db.ms :: 1 <= q <= db.maxSequence
  }

  /** Entries and rows from `cut` on name each other. */
  predicate Inverse(db: Db, cut: nat) {
    && (forall n | n in db.mn && db.mn[n].sequence >= cut :: Points(db, db.mn[n].sequence, n))
    && forall q | q in db.ms && q >= cut :: db.ms[q] in db.mn && db.mn[db.ms[q]].sequence == q
  }

  predicate Points(db: Db, q: int, n: Name) { q >= 0 && q in db.ms && db.ms[q] == n }

  predicate IndexOk(db: Db, cut: nat) { Bounded(db) && Inverse(db, cut) }

  lemma CommitIndex(db: Db, name: Name, stored: FileInfo, cut: nat)
    requires IndexOk(db, cut)
    ensures IndexOk(Commit(db, name, stored), cut)
  {
    hide Carried;
    var t, q0 := Commit(db, name, stored), db.maxSequence + 1;
    forall n | n in t.mn && t.mn[n].sequence >= cut ensures Points(t, t.mn[n].sequence, n) {
      if n != name {
        assert t.mn[n] == db.mn[n] && Points(db, db.mn[n].sequence, n);
        if name in db.mn && db.mn[name].sequence >= cut { assert Points(db, db.mn[name].sequence, name); }
      }
    }
    forall q | q in t.ms && q >= cut ensures t.ms[q] in t.mn && t.mn[t.ms[q]].sequence == q {
      if q != q0 { assert q in db.ms && db.ms[q] in db.mn && db.mn[db.ms[q]].sequence == q; }
    }
  }

  /** Operations that keep the rows, the counter and every entry's sequence. */
  predicate SameIndex(db: Db, t: Db) {
    && t.ms == db.ms && t.maxSequence == db.maxSequence && t.mn.Keys == db.mn.Keys
    && forall n | n in db.mn :: t.mn[n].sequence == db.mn[n].sequence
  }

  lemma SameIndexOk(db: Db, t: Db, cut: nat)
    requires IndexOk(db, cut) && SameIndex(db, t)
    ensures IndexOk(t, cut)
  {
    forall n | n in t.mn && t.mn[n].sequence >= cut ensures Points(t, t.mn[n].sequence, n) {
      assert Points(db, db.mn[n].sequence, n);
    }
  }

  lemma LinkIndex(db: Db, slot: Slot, name: Name, hash: Hash, q: Option<nat>, d: Option<Bytes>)
    requires HasSlot(db, slot, name)
    ensures SameIndex(db, Link(db, slot, name, hash, q, d))
  {}

  lemma PruneIndex(f: Filter, db: Db, row: Row, cut: nat)
    requires IndexOk(db, cut)
    ensures IndexOk(Pruned(f, db, row), MaxCut(cut, f.floor))
  {
    var t, c := Pruned(f, db, row), MaxCut(cut, f.floor);
    if t.ms == db.ms && t.mn == db.mn {
      Raise(db, cut, c);
      SameIndexOk(db, t, c);
    } else {
      forall n | n in t.mn && t.mn[n].sequence >= c ensures Points(t, t.mn[n].sequence, n) {
        assert Points(db, db.mn[n].sequence, n);
      }
    }
  }

  lemma Raise(db: Db, cut: nat, c: nat)
    requires IndexOk(db, cut) && cut <= c
    ensures IndexOk(db, c)
  {
    forall n | n in db.mn && db.mn[n].sequence >= c ensures Points(db, db.mn[n].sequence, n) {}
  }

  // ---------------------------------------------------------------- runs

  predicate IndexInv(s: State) { Shaped(s) && forall k | 0 <= k < |s.history| :: IndexOk(s.history[k], s.cut) }

  /** An entry that a call has read is no newer than the one there is; if there is none, it was pruned below the cut. */
  predicate PeekOk(db: Db, cut: nat, n: Name, f: FileInfo) {
    && 1 <= f.sequence <= db.maxSequence
    && (f.sequence < cut || (n in db.mn && f.sequence <= db.mn[n].sequence))
  }

  predicate PeekInv(s: State) {
    Shaped(s) && forall p | p in s.calls.peeked :: PeekOk(Now(s), s.cut, p.0, p.1)
  }

  lemma Append(s: State, db: Db, t: State)
    requires IndexInv(s) && t.history == s.history + [db] && t.flushed < |t.history| && t.cut == s.cut
    requires IndexOk(db, s.cut)
    ensures IndexInv(t)
  {
    hide IndexOk;
  }

  lemma CommitKeeps(s: State, db: Db, name: Name, stored: FileInfo, t: State)
    requires IndexInv(s) && SameIndex(Now(s), db)
    requires t.history == s.history + [Commit(db, name, stored)] && t.flushed < |t.history| && t.cut == s.cut
    ensures IndexInv(t)
  {
    hide SameIndex, Commit, Bounded, Inverse;
    assert IndexOk(Now(s), s.cut);
    SameIndexOk(Now(s), db, s.cut);
    CommitIndex(db, name, stored, s.cut);
    Append(s, Commit(db, name, stored), t);
  }

  lemma SameKeeps(s: State, db: Db, t: State)
    requires IndexInv(s) && SameIndex(Now(s), db) && t.history == s.history + [db] && t.flushed < |t.history|
    requires t.cut == s.cut
    ensures IndexInv(t)
  {
    hide SameIndex, Bounded, Inverse;
    assert IndexOk(Now(s), s.cut);
    SameIndexOk(Now(s), db, s.cut);
    Append(s, db, t);
  }

  lemma NumberKeeps(s: State, hash: Hash)
    requires IndexInv(s)
    ensures IndexInv(Take(s, hash).(taken := s.taken[Taken(s) := hash]))
  {
    hide IndexOk;
    var a, t := Allocate(s.range, Now(s).nextBlockseq), Take(s, hash).(taken := s.taken[Taken(s) := hash]);
    if a.refilled { SameKeeps(s, Now(s).(nextBlockseq := a.nextBlockseq), t); } else { KeptHistory(s, t); }
  }

  lemma InlineIndex(db: Db, e: Option<Epoch>, name: Name, hash: Hash, data: Bytes)
    requires CanLink(db, e, name, hash)
    ensures SameIndex(db, StoreInline(db, e, name, hash, data))
  {
    hide Link, Mentions;
    LinkIndex(db, FindEntry(db, e, name).value, name, hash, None, Some(data));
  }

  lemma ShareIndex(db: Db, e: Option<Epoch>, name: Name, hash: Hash, dir: Name, q: nat)
    requires CanLink(db, e, name, hash)
    ensures SameIndex(db, ShareBlock(db, e, name, hash, dir, q))
  {
    hide Link, Dirname, Mentions;
    var mb := if dir != Dirname(name) then db.mb[(Dirname(name), hash) := q] else db.mb;
    LinkIndex(db.(mb := mb, mr := db.mr + {(hash, name)}), FindEntry(db, e, name).value, name, hash, Some(q), None);
  }

  lemma NewIndex(db: Db, e: Option<Epoch>, name: Name, hash: Hash, data: Bytes, q: nat)
    requires CanLink(db, e, name, hash)
    ensures SameIndex(db, NewBlock(db, e, name, hash, data, q))
  {
    hide Link, Dirname, Mentions;
    LinkIndex(db.(bd := db.bd[q := data], mb := db.mb[(Dirname(name), hash) := q], mr := db.mr + {(hash, name)}),
              FindEntry(db, e, name).value, name, hash, Some(q), None);
  }

  lemma FreshKeeps(s: State, name: Name, hash: Hash, data: Bytes, q: nat)
    requires Enabled(s, Fresh(name, hash, data, q), CODE) && IndexInv(s)
    ensures IndexInv(Next(s, Fresh(name, hash, data, q)))
  {
    hide IndexOk, NewBlock, SameIndex, Mentions;
    NewIndex(Now(s), Some(s.epoch), name, hash, data, q);
    SameKeeps(s, NewBlock(Now(s), Some(s.epoch), name, hash, data, q), Next(s, Fresh(name, hash, data, q)));
  }

  lemma InlineKeeps(s: State, name: Name, hash: Hash, data: Bytes)
    requires Enabled(s, Inline(name, hash, data), CODE) && IndexInv(s)
    ensures IndexInv(Next(s, Inline(name, hash, data)))
  {
    hide IndexOk, StoreInline, SameIndex, Mentions;
    InlineIndex(Now(s), Some(s.epoch), name, hash, data);
    SameKeeps(s, StoreInline(Now(s), Some(s.epoch), name, hash, data), Next(s, Inline(name, hash, data)));
  }

  lemma ShareKeeps(s: State, name: Name, f: Sighting)
    requires Enabled(s, Share(name, f), CODE) && IndexInv(s)
    ensures IndexInv(Next(s, Share(name, f)))
  {
    hide IndexOk, ShareBlock, SameIndex, Mentions;
    ShareIndex(Now(s), Some(s.epoch), name, f.hash, f.dir, f.seqno);
    SameKeeps(s, ShareBlock(Now(s), Some(s.epoch), name, f.hash, f.dir, f.seqno), Next(s, Share(name, f)));
  }

  lemma CopyKeeps(s: State, c: Captured)
    requires Enabled(s, Copy(c), CODE) && IndexInv(s)
    ensures IndexInv(Next(s, Copy(c)))
  {
    hide IndexOk, Separated;
    var db := Now(s);
    var refs := set p | p in Separated(c.blocks) :: (p.0, c.f.name);
    CommitKeeps(s, db.(mr := db.mr + refs), c.f.name, FromWire(c.f).(blocks := c.blocks), Next(s, Copy(c)));
  }

  lemma PromoteKeeps(s: State, name: Name)
    requires IndexInv(s) && (s.epoch, name) in Now(s).mi
    ensures IndexInv(Write(s, PromoteStaged(Now(s), s.epoch, name)))
  {
    hide IndexOk;
    var db := Now(s);
    CommitKeeps(s, db.(mi := db.mi - {(s.epoch, name)}), name, db.mi[(s.epoch, name)],
                Write(s, PromoteStaged(db, s.epoch, name)));
  }

  lemma CompleteKeeps(s: State, name: Name, expected: Option<Vector>)
    requires IndexInv(s) && CompleteFile(Now(s), s.epoch, name, expected).Promoted?
    ensures IndexInv(Write(s, CompleteFile(Now(s), s.epoch, name, expected).db))
  {
    hide IndexOk, PromoteStaged;
    PromoteKeeps(s, name);
  }

  lemma PutKeeps(s: State, f: WireInfo)
    requires IndexInv(s)
    ensures IndexInv(Write(s, PutFile(Now(s), f)))
  {
    hide IndexOk;
    CommitKeeps(s, Now(s), f.name, FromWire(f), Write(s, PutFile(Now(s), f)));
  }

  lemma DropKeeps(s: State, j: nat, row: Row)
    requires Enabled(s, Drop(j, row), CODE) && IndexInv(s)
    ensures IndexInv(Next(s, Drop(j, row)))
  {
    hide IndexOk;
    var t, f := Next(s, Drop(j, row)), FilterOf(s, j);
    forall k | 0 <= k < |t.history| ensures IndexOk(t.history[k], t.cut) { PruneIndex(f, s.history[k], row, s.cut); }
  }

  lemma InstallKeeps(s: State, q: nat)
    requires Enabled(s, Install(q), CODE) && IndexInv(s)
    ensures IndexInv(Next(s, Install(q)))
  {
    hide IndexOk;
    var t := Next(s, Install(q));
    forall k | 0 <= k < |t.history|
      ensures IndexOk(t.history[k], t.cut)
    {
      SameIndexOk(s.history[k], t.history[k], s.cut);
    }
  }

  lemma KeptHistory(s: State, t: State)
    requires IndexInv(s) && t.history == s.history && t.cut == s.cut && t.flushed < |t.history|
    ensures IndexInv(t)
  {
    hide IndexOk;
  }

  lemma CrashKeeps(s: State, k: nat, e: Epoch)
    requires Enabled(s, Crash(k, e), CODE) && IndexInv(s)
    ensures IndexInv(Next(s, Crash(k, e)))
  {
    hide IndexOk;
  }

  lemma WriterStep(s: State, a: Action)
    requires Shaped(s) && Writes(a) && CanWrite(s, a, CODE) && IndexInv(s) && PeekInv(s)
    ensures IndexInv(Wrote(s, a))
  {
    hide IndexInv, PeekInv, PutFile, CommitCopy, CompleteFile, PromoteStaged, StageFile, StoreInline, ShareBlock,
         NewBlock, Separated, CanLink, Supplies, ValidName, ValidInfo, SeqsIn, FolderModel.GcInbox, CanMove, Moved;
    match a
    case Stage(f) => StageKeeps(s, f);
    case Complete(name, expected) => CompleteKeeps(s, name, expected);
    case Metadata(f) => PutKeeps(s, f);
    case Resolve(f) => PutKeeps(s, f);
    case Copy(c) => CopyKeeps(s, c);
    case Inline(name, hash, data) => InlineKeeps(s, name, hash, data);
    case Fresh(name, hash, data, q) => FreshKeeps(s, name, hash, data, q);
    case Share(name, f) => ShareKeeps(s, name, f);
    case Restore(name, f) => RestoreKeeps(s, name, f);
    case LateComplete(name, _, _) => PromoteKeeps(s, name);
    case GcInbox => OldInboxKeeps(s);
    case Peer(d, reached) => PeerKeeps(s, d, reached);
  }

  lemma StageKeeps(s: State, f: WireInfo)
    requires IndexInv(s)
    ensures IndexInv(Write(s, StageFile(Now(s), s.epoch, f)))
  {
    hide IndexOk;
    SameKeeps(s, StageFile(Now(s), s.epoch, f), Write(s, StageFile(Now(s), s.epoch, f)));
  }

  lemma RestoreKeeps(s: State, name: Name, f: FileInfo)
    requires IndexInv(s) && PeekInv(s) && (name, f) in s.calls.peeked && name !in Now(s).mn
    ensures IndexInv(Write(s, Now(s).(mn := Now(s).mn[name := f])))
  {
    var db, t := Now(s), Now(s).(mn := Now(s).mn[name := f]);
    assert PeekOk(db, s.cut, (name, f).0, (name, f).1);
    assert IndexOk(db, s.cut);
    forall n | n in t.mn && t.mn[n].sequence >= s.cut ensures Points(t, t.mn[n].sequence, n) {
      assert n != name && Points(db, db.mn[n].sequence, n);
    }
    assert IndexOk(t, s.cut);
    hide IndexOk;
    Append(s, t, Write(s, t));
  }

  lemma OldInboxKeeps(s: State)
    requires IndexInv(s)
    ensures IndexInv(Write(s, FolderModel.GcInbox(Now(s), s.epoch)))
  {
    hide IndexOk;
    SameKeeps(s, FolderModel.GcInbox(Now(s), s.epoch), Write(s, FolderModel.GcInbox(Now(s), s.epoch)));
  }

  lemma PeerKeeps(s: State, d: Device, reached: int)
    requires IndexInv(s)
    ensures IndexInv(Write(s, Now(s).(md := Now(s).md[d := reached])))
  {
    hide IndexOk;
    SameKeeps(s, Now(s).(md := Now(s).md[d := reached]), Write(s, Now(s).(md := Now(s).md[d := reached])));
  }

  lemma OtherStep(s: State, a: Action)
    requires Shaped(s) && !Writes(a) && CanMove(s, a, CODE) && IndexInv(s)
    ensures IndexInv(Moved(s, a))
  {
    hide IndexInv, Take, Taken, PruneAll, LoseAll, FilterOf, CopyBlocks, MetadataOnly, BlockSafe, Refers, FileSeqs,
         LiveSeqs, ScanSeqs, ScanHashes, Visible, JudgedInTime, PeerFloor, Record, CanWrite, Wrote;
    if Quiet(a) {
      QuietFrame(s, a);
      KeptHistory(s, Moved(s, a));
    } else {
      match a
      case Number(hash) => NumberKeeps(s, hash);
      case Drop(j, row) => DropKeeps(s, j, row);
      case Install(q) => InstallKeeps(s, q);
      case Crash(k, e) => CrashKeeps(s, k, e);
    }
  }

  lemma IndexStep(s: State, a: Action)
    requires Enabled(s, a, CODE) && IndexInv(s) && PeekInv(s)
    ensures IndexInv(Next(s, a))
  {
    hide IndexInv, PeekInv, CanWrite, CanMove, Wrote, Moved;
    if Writes(a) { WriterStep(s, a); } else { OtherStep(s, a); }
  }

  // ---------------------------------------------------------------- sequences only grow

  /** Entries stay and get newer; only pruning takes one away. */
  predicate Grows(db: Db, t: Db) {
    db.maxSequence <= t.maxSequence && forall n | n in db.mn :: n in t.mn && t.mn[n].sequence >= db.mn[n].sequence
  }

  /** From `db` to `t`, later in the same process, each sequence stayed, is new, or was pruned and restored. */
  predicate Ages(db: Db, t: Db, cut: nat) {
    && db.maxSequence <= t.maxSequence
    && forall n | n in t.mn ::
         || (n in db.mn && t.mn[n].sequence == db.mn[n].sequence)
         || t.mn[n].sequence > db.maxSequence || t.mn[n].sequence < cut
  }

  lemma CommitGrows(db: Db, mid: Db, name: Name, stored: FileInfo, cut: nat)
    requires mid.mn == db.mn && mid.maxSequence == db.maxSequence && Bounded(db)
    ensures Grows(db, Commit(mid, name, stored)) && Ages(db, Commit(mid, name, stored), cut)
  {
    hide Carried;
  }

  lemma SameGrows(db: Db, t: Db, cut: nat)
    requires SameIndex(db, t)
    ensures Grows(db, t) && Ages(db, t, cut)
  {}

  lemma RestoreGrows(s: State, name: Name, f: FileInfo)
    requires PeekInv(s) && (name, f) in s.calls.peeked && name !in Now(s).mn
    ensures var t := Now(s).(mn := Now(s).mn[name := f]); Grows(Now(s), t) && Ages(Now(s), t, s.cut)
  {
    assert PeekOk(Now(s), s.cut, (name, f).0, (name, f).1);
  }

  lemma CommitsGrow(s: State, a: Action)
    requires Shaped(s) && Writes(a) && CanWrite(s, a, CODE) && Bounded(Now(s))
    requires a.Complete? || a.LateComplete? || a.Metadata? || a.Resolve? || a.Copy?
    ensures var t := Wrote(s, a); Shaped(t) && Grows(Now(s), Now(t)) && Ages(Now(s), Now(t), s.cut)
  {
    hide Grows, Ages, Commit, Separated, SeqsIn, Files.Complete, Carried, Bounded, CanMove, Moved;
    var db, c := Now(s), s.cut;
    match a
    case Complete(name, _) => CommitGrows(db, db.(mi := db.mi - {(s.epoch, name)}), name, db.mi[(s.epoch, name)], c);
    case LateComplete(name, _, _) =>
      CommitGrows(db, db.(mi := db.mi - {(s.epoch, name)}), name, db.mi[(s.epoch, name)], c);
    case Metadata(f) => CommitGrows(db, db, f.name, FromWire(f), c);
    case Resolve(f) => CommitGrows(db, db, f.name, FromWire(f), c);
    case Copy(x) =>
      var refs := set p | p in Separated(x.blocks) :: (p.0, x.f.name);
      CommitGrows(db, db.(mr := db.mr + refs), x.f.name, FromWire(x.f).(blocks := x.blocks), c);
  }

  lemma LinksGrow(s: State, a: Action)
    requires Shaped(s) && (a.Inline? || a.Fresh? || a.Share?) && CanWrite(s, a, CODE)
    ensures var t := Wrote(s, a); Shaped(t) && Grows(Now(s), Now(t)) && Ages(Now(s), Now(t), s.cut)
  {
    hide Grows, Ages, SameIndex, StoreInline, ShareBlock, NewBlock, CanLink, Supplies, CanMove, Moved;
    var db, e, c := Now(s), Some(s.epoch), s.cut;
    match a
    case Inline(name, hash, data) =>
      InlineIndex(db, e, name, hash, data);
      SameGrows(db, StoreInline(db, e, name, hash, data), c);
    case Fresh(name, hash, data, q) =>
      NewIndex(db, e, name, hash, data, q);
      SameGrows(db, NewBlock(db, e, name, hash, data, q), c);
    case Share(name, f) =>
      ShareIndex(db, e, name, f.hash, f.dir, f.seqno);
      SameGrows(db, ShareBlock(db, e, name, f.hash, f.dir, f.seqno), c);
  }

  lemma WroteGrows(s: State, a: Action)
    requires Shaped(s) && Writes(a) && CanWrite(s, a, CODE) && Bounded(Now(s)) && PeekInv(s)
    ensures var t := Wrote(s, a); Shaped(t) && Grows(Now(s), Now(t)) && Ages(Now(s), Now(t), s.cut)
  {
    hide Grows, Ages, PutFile, CommitCopy, CompleteFile, PromoteStaged, StoreInline, ShareBlock, NewBlock, Separated,
         CanLink, Supplies, ValidName, ValidInfo, SeqsIn, Bounded, PeekInv, CanMove, Moved;
    var db, c := Now(s), s.cut;
    match a
    case Restore(name, f) => RestoreGrows(s, name, f);
    case Stage(f) => OtherRows(db, StageFile(db, s.epoch, f), c);
    case GcInbox => OtherRows(db, FolderModel.GcInbox(db, s.epoch), c);
    case Peer(d, reached) => OtherRows(db, db.(md := db.md[d := reached]), c);
    case _ => if a.Inline? || a.Fresh? || a.Share? { LinksGrow(s, a); } else { CommitsGrow(s, a); }
  }

  lemma OtherRows(db: Db, t: Db, cut: nat)
    requires t.mn == db.mn && t.maxSequence == db.maxSequence
    ensures Grows(db, t) && Ages(db, t, cut)
  {}

  lemma GrowsPeek(db: Db, t: Db, cut: nat, n: Name, f: FileInfo)
    requires PeekOk(db, cut, n, f) && Grows(db, t)
    ensures PeekOk(t, cut, n, f)
  {}

  lemma PrunedPeek(f: Filter, db: Db, row: Row, cut: nat, n: Name, entry: FileInfo)
    requires PeekOk(db, cut, n, entry)
    ensures PeekOk(Pruned(f, db, row), MaxCut(cut, f.floor), n, entry)
  {}

  lemma PeekStep(s: State, a: Action)
    requires Enabled(s, a, CODE) && IndexInv(s) && PeekInv(s)
    ensures PeekInv(Next(s, a))
  {
    hide IndexOk, PeekOk, Grows, Ages, CanWrite, CanMove, Wrote, Moved;
    assert IndexOk(Now(s), s.cut);
    if Writes(a) {
      IsBounded(Now(s), s.cut);
      WroteGrows(s, a);
      WroteFrame(s, a);
      var t := Next(s, a);
      forall p | p in t.calls.peeked ensures PeekOk(Now(t), t.cut, p.0, p.1) {
        GrowsPeek(Now(s), Now(t), s.cut, p.0, p.1);
      }
    } else {
      MovedPeek(s, a);
    }
  }

  lemma IsBounded(db: Db, cut: nat)
    requires IndexOk(db, cut)
    ensures Bounded(db)
  {}

  lemma MovedPeek(s: State, a: Action)
    requires Shaped(s) && !Writes(a) && CanMove(s, a, CODE) && PeekInv(s) && IndexOk(Now(s), s.cut)
    ensures PeekInv(Moved(s, a))
  {
    hide PeekOk, IndexOk, Pruned, WithoutRow, Take, Taken, CopyBlocks, MetadataOnly, BlockSafe, Refers, FileSeqs,
         LiveSeqs, ScanSeqs, ScanHashes, Visible, JudgedInTime, PeerFloor, Record, CanWrite, Wrote;
    var t := Moved(s, a);
    if a.Peek? {
      PeekNow(Now(s), s.cut, a.name);
    } else if Quiet(a) {
      QuietFrame(s, a);
    } else if a.Drop? {
      forall p | p in t.calls.peeked ensures PeekOk(Now(t), t.cut, p.0, p.1) {
        PrunedPeek(FilterOf(s, a.job), Now(s), a.row, s.cut, p.0, p.1);
      }
    } else if !a.Crash? {
      RestGrows(s, a);
      forall p | p in t.calls.peeked ensures PeekOk(Now(t), t.cut, p.0, p.1) {
        GrowsPeek(Now(s), Now(t), s.cut, p.0, p.1);
      }
    }
  }

  lemma PeekNow(db: Db, cut: nat, n: Name)
    requires IndexOk(db, cut) && n in db.mn
    ensures PeekOk(db, cut, n, db.mn[n])
  {}

  lemma RestGrows(s: State, a: Action)
    requires Shaped(s) && (a.Number? || a.Install?) && CanMove(s, a, CODE)
    ensures var t := Moved(s, a); Shaped(t) && Grows(Now(s), Now(t)) && t.cut == s.cut && t.calls == s.calls
  {
    hide Grows, CanWrite, Wrote, Take, Taken, WithoutRow;
    match a
    case Number(hash) => TakeGrows(s, hash);
    case Install(q) => LossGrows(Now(s), q);
  }

  lemma TakeGrows(s: State, hash: Hash)
    requires Shaped(s)
    ensures var t := Take(s, hash); Shaped(t) && Grows(Now(s), Now(t)) && t.cut == s.cut && t.calls == s.calls
  {}

  lemma LossGrows(db: Db, q: nat)
    ensures Grows(db, WithoutRow(db, DataRow(q)))
  {}

  lemma {:induction false} RunKeeps(s: State, acts: seq<Action>, t: State)
    requires Runs(s, acts, t, CODE) && IndexInv(s) && PeekInv(s)
    ensures IndexInv(t) && PeekInv(t)
    decreases |acts|
  {
    hide IndexInv, PeekInv, Enabled, Next;
    if acts != [] {
      Weaken(s, acts[0], CODE);
      IndexStep(s, acts[0]);
      PeekStep(s, acts[0]);
      RunKeeps(Next(s, acts[0]), acts[1..], t);
    }
  }

  // ---------------------------------------------------------------- the delta index

  /** `r` lists, in increasing sequence and without repeats, exactly the files with sequence above `since`. */
  predicate Delta(db: Db, since: int, r: seq<(Name, FileInfo)>) {
    && (forall i | 0 <= i < |r| :: r[i].0 in db.mn && r[i].1 == db.mn[r[i].0] && r[i].1.sequence > since)
    && (forall i, j | 0 <= i < j < |r| :: r[i].1.sequence < r[j].1.sequence)
    && forall n | n in db.mn && db.mn[n].sequence > since :: (n, db.mn[n]) in r
  }

  /** Every row of `keys` leads to the entry with that sequence. */
  predicate Sound(db: Db, keys: set<nat>) {
    keys <= db.ms.Keys && forall q | q in keys :: db.ms[q] in db.mn && db.mn[db.ms[q]].sequence == q
  }

  lemma {:induction false} FilesAtExact(db: Db, keys: set<nat>)
    requires Sound(db, keys)
    ensures var r := FilesAt(db, keys);
            && (forall i | 0 <= i < |r| ::
                r[i].0 in db.mn && r[i].1 == db.mn[r[i].0] && r[i].1.sequence >= 0 && r[i].1.sequence in keys)
            && (forall i, j | 0 <= i < j < |r| :: r[i].1.sequence < r[j].1.sequence)
            && forall q | q in keys :: (db.ms[q], db.mn[db.ms[q]]) in r
    decreases keys
  {
    if keys != {} {
      var q := Least(keys);
      var rest := FilesAt(db, keys - {q});
      FilesAtExact(db, keys - {q});
      var head := (db.ms[q], db.mn[db.ms[q]]);
      var r := FilesAt(db, keys);
      assert r == [head] + rest;
      forall i | 0 < i < |r|
        ensures r[i] == rest[i - 1] && r[i].1.sequence > q
      {
        LeastBelow(keys, rest[i - 1].1.sequence);
      }
      forall x | x in keys ensures (db.ms[x], db.mn[db.ms[x]]) in r {
        if x == q { assert r[0] == head; } else { assert (db.ms[x], db.mn[db.ms[x]]) in rest; }
      }
    }
  }

  lemma DeltaIs(db: Db, cut: nat, since: int)
    requires IndexOk(db, cut) && since + 1 >= cut
    ensures Sound(db, SeqsAbove(db, since)) && Delta(db, since, FilesSince(db, since))
  {
    var keys, r := SeqsAbove(db, since), FilesSince(db, since);
    FilesAtExact(db, keys);
    forall n | n in db.mn && db.mn[n].sequence > since ensures (n, db.mn[n]) in r {
      assert Points(db, db.mn[n].sequence, n);
    }
  }

  lemma InitialOk(e: Epoch)
    ensures IndexInv(Initial(e)) && PeekInv(Initial(e))
  {}

  /** After any run a delta from `since` is exact, provided no job has pruned with a floor above `since + 1`. */
  lemma DeltaExact(e: Epoch, acts: seq<Action>, s: State, since: int)
    requires Runs(Initial(e), acts, s, CODE) && since + 1 >= s.cut
    ensures Shaped(s) && Delta(Now(s), since, FilesSince(Now(s), since))
  {
    hide Runs, FilesSince, Delta;
    InitialOk(e);
    RunKeeps(Initial(e), acts, s);
    DeltaIs(Now(s), s.cut, since);
  }

  /** Without pruning, sequences and rows are mutual inverses in every state a crash could leave. */
  lemma Bijection(e: Epoch, acts: seq<Action>, s: State, k: nat)
    requires Runs(Initial(e), acts, s, CODE) && forall i | 0 <= i < |acts| :: !acts[i].Drop?
    requires k < |s.history|
    ensures Bounded(s.history[k]) && Inverse(s.history[k], 0)
  {
    hide Runs, Bounded, Inverse;
    InitialOk(e);
    RunKeeps(Initial(e), acts, s);
    CutUnchanged(Initial(e), acts, s);
  }

  lemma CutStep(s: State, a: Action)
    requires Enabled(s, a, CODE) && !a.Drop?
    ensures Next(s, a).cut == s.cut
  {
    hide CanWrite, CanMove, Wrote, Moved;
    if Writes(a) { WroteFrame(s, a); }
    else if Quiet(a) { QuietFrame(s, a); }
    else { RestCut(s, a); }
  }

  lemma RestCut(s: State, a: Action)
    requires Shaped(s) && (a.Number? || a.Install? || a.Crash?) && CanMove(s, a, CODE)
    ensures Moved(s, a).cut == s.cut
  {
    hide LoseAll, CanWrite, Wrote;
  }

  lemma {:induction false} CutUnchanged(s: State, acts: seq<Action>, t: State)
    requires Runs(s, acts, t, CODE) && forall i | 0 <= i < |acts| :: !acts[i].Drop?
    ensures t.cut == s.cut
    decreases |acts|
  {
    hide Enabled, Next;
    if acts != [] {
      CutStep(s, acts[0]);
      CutUnchanged(Next(s, acts[0]), acts[1..], t);
    }
  }

  // ---------------------------------------------------------------- a delta read beside writers

  lemma StepAges(s: State, a: Action)
    requires Enabled(s, a, CODE) && !a.Crash? && IndexInv(s) && PeekInv(s)
    ensures var t := Next(s, a); Shaped(t) && s.cut <= t.cut && Ages(Now(s), Now(t), t.cut)
  {
    hide CanWrite, CanMove, Wrote, Moved, Ages, Grows, PeekInv, IndexOk;
    if Writes(a) {
      IsBounded(Now(s), s.cut);
      WroteGrows(s, a);
      WroteFrame(s, a);
    } else if Quiet(a) {
      QuietFrame(s, a);
      OtherRows(Now(s), Now(s), s.cut);
    } else {
      RestAges(s, a);
    }
  }

  lemma RestAges(s: State, a: Action)
    requires Shaped(s) && (a.Number? || a.Drop? || a.Install?) && CanMove(s, a, CODE)
    ensures var t := Moved(s, a); Shaped(t) && s.cut <= t.cut && Ages(Now(s), Now(t), t.cut)
  {
    hide Ages, CanWrite, Wrote, Pruned, WithoutRow, Take, Taken, JudgedInTime;
    match a
    case Number(hash) => TakeAges(s, hash);
    case Drop(j, row) => PruneAges(FilterOf(s, j), Now(s), row, Moved(s, a).cut);
    case Install(q) => LossAges(Now(s), q, s.cut);
  }

  lemma TakeAges(s: State, hash: Hash)
    requires Shaped(s)
    ensures var t := Take(s, hash); Shaped(t) && t.cut == s.cut && Ages(Now(s), Now(t), s.cut)
  {
    hide Ages, Grows;
    OtherRows(Now(s), Now(Take(s, hash)), s.cut);
  }

  lemma PruneAges(f: Filter, db: Db, row: Row, cut: nat)
    ensures Ages(db, Pruned(f, db, row), cut)
  {}

  lemma LossAges(db: Db, q: nat, cut: nat)
    ensures Ages(db, WithoutRow(db, DataRow(q)), cut)
  {}

  lemma AgesOn(a: Db, b: Db, c: Db, first: nat, cut: nat)
    requires Ages(a, b, first) && Ages(b, c, cut) && first <= cut
    ensures Ages(a, c, cut)
  {}

  /** `t` is reached from `s` without a crash. */
  ghost predicate Lasts(s: State, acts: seq<Action>, t: State) {
    Runs(s, acts, t, CODE) && forall i | 0 <= i < |acts| :: !acts[i].Crash?
  }

  lemma {:induction false} RunAges(s: State, acts: seq<Action>, t: State)
    requires Lasts(s, acts, t) && IndexInv(s) && PeekInv(s)
    ensures Shaped(s) && Shaped(t) && s.cut <= t.cut && Ages(Now(s), Now(t), t.cut)
    decreases |acts|
  {
    hide Enabled, Next, Ages, IndexOk, PeekOk;
    if acts == [] {
      OtherRows(Now(s), Now(s), s.cut);
    } else {
      var m := Next(s, acts[0]);
      StepAges(s, acts[0]);
      IndexStep(s, acts[0]);
      PeekStep(s, acts[0]);
      RunAges(m, acts[1..], t);
      AgesOn(Now(s), Now(m), Now(t), m.cut, t.cut);
    }
  }

  /** The rows `keys` were read from `db`; the file of row `q` is read from `later[q]`. */
  function FilesLate(db: Db, keys: set<nat>, later: map<nat, Db>): seq<(Name, FileInfo)>
    requires keys <= db.ms.Keys && keys <= later.Keys
    decreases keys
  {
    if keys == {} then []
    else
      var q := Least(keys);
      var n := db.ms[q];
      (if n in later[q].mn then [(n, later[q].mn[n])] else []) + FilesLate(db, keys - {q}, later)
  }

  /**
    The files behind `keys` that are still there, in the order of their old sequences, none of them older
    unless it was pruned below `cut` and restored.
   */
  predicate LateDelta(db: Db, keys: set<nat>, later: map<nat, Db>, cut: nat, r: seq<(Name, FileInfo)>)
    requires Sound(db, keys) && keys <= later.Keys
  {
    && (forall i | 0 <= i < |r| :: LateFile(db, keys, cut, r[i].0, r[i].1))
    && (forall i, j | 0 <= i < j < |r| :: db.mn[r[i].0].sequence < db.mn[r[j].0].sequence)
    && forall q | q in keys && db.ms[q] in later[q].mn :: (db.ms[q], later[q].mn[db.ms[q]]) in r
  }

  predicate LateFile(db: Db, keys: set<nat>, cut: nat, n: Name, f: FileInfo) {
    && n in db.mn && db.mn[n].sequence >= 0 && db.mn[n].sequence in keys
    && (f.sequence >= db.mn[n].sequence || f.sequence < cut)
  }

  lemma {:induction false} FilesLateExact(db: Db, keys: set<nat>, later: map<nat, Db>, cut: nat)
    requires Sound(db, keys) && keys <= later.Keys && Bounded(db) && forall q | q in keys :: Ages(db, later[q], cut)
    ensures LateDelta(db, keys, later, cut, FilesLate(db, keys, later))
    decreases keys
  {
    hide Ages;
    if keys == {} {
      assert FilesLate(db, keys, later) == [];
    } else {
      hide LateDelta;
      var q := Least(keys);
      var rest, n := FilesLate(db, keys - {q}, later), db.ms[q];
      FilesLateExact(db, keys - {q}, later, cut);
      if n in later[q].mn {
        NotOlder(db, later[q], n, cut);
        Prepended(db, keys, later, cut, rest);
      } else {
        Skipped(db, keys, later, cut, rest);
        assert [] + rest == rest;
      }
    }
  }

  lemma NotOlder(db: Db, t: Db, n: Name, cut: nat)
    requires Ages(db, t, cut) && Bounded(db) && n in db.mn && n in t.mn
    ensures t.mn[n].sequence >= db.mn[n].sequence || t.mn[n].sequence < cut
  {}

  /** The file of the first row is gone. */
  lemma Skipped(db: Db, keys: set<nat>, later: map<nat, Db>, cut: nat, rest: seq<(Name, FileInfo)>)
    requires Sound(db, keys) && keys <= later.Keys && keys != {}
    requires LateDelta(db, keys - {Least(keys)}, later, cut, rest)
    requires var q := Least(keys); db.ms[q] !in later[q].mn
    ensures LateDelta(db, keys, later, cut, rest)
  {}

  /** The file of the first row is still there. */
  lemma Prepended(db: Db, keys: set<nat>, later: map<nat, Db>, cut: nat, rest: seq<(Name, FileInfo)>)
    requires Sound(db, keys) && keys <= later.Keys && keys != {}
    requires LateDelta(db, keys - {Least(keys)}, later, cut, rest)
    requires var q := Least(keys);
             && db.ms[q] in later[q].mn
             && (later[q].mn[db.ms[q]].sequence >= q || later[q].mn[db.ms[q]].sequence < cut)
    ensures var q := Least(keys); LateDelta(db, keys, later, cut, [(db.ms[q], later[q].mn[db.ms[q]])] + rest)
  {
    var q := Least(keys);
    var head := (db.ms[q], later[q].mn[db.ms[q]]);
    var r := [head] + rest;
    forall i | 0 <= i < |r| ensures LateFile(db, keys, cut, r[i].0, r[i].1) && (i > 0 ==> db.mn[r[i].0].sequence > q) {
      if i > 0 {
        assert r[i] == rest[i - 1] && LateFile(db, keys - {q}, cut, rest[i - 1].0, rest[i - 1].1);
        LeastBelow(keys, db.mn[rest[i - 1].0].sequence);
      }
    }
    forall i, j | 0 <= i < j < |r| ensures db.mn[r[i].0].sequence < db.mn[r[j].0].sequence {
      if i > 0 { assert r[i] == rest[i - 1] && r[j] == rest[j - 1]; } else { assert r[i] == head; }
    }
    forall x | x in keys && db.ms[x] in later[x].mn ensures (db.ms[x], later[x].mn[db.ms[x]]) in r {
      if x != q { assert (db.ms[x], later[x].mn[db.ms[x]]) in rest; }
    }
  }

  /**
    A delta whose rows are scanned after one run and whose files are read one by one while writers go
    on: each file above `since` comes at most once and, unless it was pruned meanwhile, at least once,
    as it is when it is read and no older than when it was scanned.
   */
  lemma DeltaBeside(e: Epoch, acts: seq<Action>, s: State, since: int, later: map<nat, Db>, cut: nat)
    requires Runs(Initial(e), acts, s, CODE) && Shaped(s) && since + 1 >= s.cut
    requires later.Keys == SeqsAbove(Now(s), since)
    requires forall q | q in later ::
               exists more, t :: Lasts(s, more, t) && Shaped(t) && later[q] == Now(t) && t.cut <= cut
    ensures Sound(Now(s), later.Keys) && LateDelta(Now(s), later.Keys, later, cut, FilesLate(Now(s), later.Keys, later))
    ensures forall n | n in Now(s).mn && Now(s).mn[n].sequence > since ::
              Now(s).mn[n].sequence >= 0 && Now(s).mn[n].sequence in later.Keys && Now(s).ms[Now(s).mn[n].sequence] == n
  {
    hide Runs, FilesSince, LateDelta, FilesLate, Ages, PeekOk;
    InitialOk(e);
    RunKeeps(Initial(e), acts, s);
    DeltaIs(Now(s), s.cut, since);
    forall q | q in later ensures Ages(Now(s), later[q], cut) {
      var more, t :| Lasts(s, more, t) && Shaped(t) && later[q] == Now(t) && t.cut <= cut;
      RunAges(s, more, t);
      AgesWider(Now(s), Now(t), t.cut, cut);
    }
    FilesLateExact(Now(s), later.Keys, later, cut);
    var db := Now(s);
    forall n | n in db.mn && db.mn[n].sequence > since
      ensures db.mn[n].sequence >= 0 && db.mn[n].sequence in later.Keys && db.ms[db.mn[n].sequence] == n
    {
      assert Points(db, db.mn[n].sequence, n);
    }
  }

  lemma AgesWider(db: Db, t: Db, first: nat, cut: nat)
    requires Ages(db, t, first) && first <= cut
    ensures Ages(db, t, cut)
  {}

  // ---------------------------------------------------------------- the order of such a delta

  predicate InOrder(r: seq<(Name, FileInfo)>) { forall i, j | 0 <= i < j < |r| :: r[i].1.sequence < r[j].1.sequence }

  /** The file of row `q` is still there when it is read. */
  predicate StillThere(db: Db, later: map<nat, Db>, q: nat) {
    q in db.ms && q in later && db.ms[q] in later[q].mn
  }

  /** The sequence it is read with. */
  function LateSeq(db: Db, later: map<nat, Db>, q: nat): int
    requires StillThere(db, later, q)
  {
    later[q].mn[db.ms[q]].sequence
  }

  predicate PairsInOrder(db: Db, keys: set<nat>, later: map<nat, Db>) {
    forall q, x | q in keys && x in keys && q < x && StillThere(db, later, q) && StillThere(db, later, x) ::
        LateSeq(db, later, q) < LateSeq(db, later, x)
  }

  /** Which rows the files come from. */
  lemma {:induction false} LateRows(db: Db, keys: set<nat>, later: map<nat, Db>)
    requires keys <= db.ms.Keys && keys <= later.Keys
    ensures forall q | q in keys && StillThere(db, later, q) ::
              (db.ms[q], later[q].mn[db.ms[q]]) in FilesLate(db, keys, later)
    ensures forall p | p in FilesLate(db, keys, later) ::
              exists q :: q in keys && StillThere(db, later, q) && LateSeq(db, later, q) == p.1.sequence
    decreases keys
  {
    if keys != {} {
      var q := Least(keys);
      var n, rest := db.ms[q], FilesLate(db, keys - {q}, later);
      LateRows(db, keys - {q}, later);
      if n in later[q].mn { assert StillThere(db, later, q) && LateSeq(db, later, q) == later[q].mn[n].sequence; }
    }
  }

  lemma LateAbove(db: Db, keys: set<nat>, later: map<nat, Db>, v: int)
    requires keys <= db.ms.Keys && keys <= later.Keys
    ensures (forall p | p in FilesLate(db, keys, later) :: v < p.1.sequence) <==>
            forall x | x in keys && StillThere(db, later, x) :: v < LateSeq(db, later, x)
  {
    hide FilesLate;
    LateRows(db, keys, later);
  }

  lemma OrderedHead(head: (Name, FileInfo), rest: seq<(Name, FileInfo)>)
    ensures InOrder([head] + rest) <==> InOrder(rest) && forall p | p in rest :: head.1.sequence < p.1.sequence
  {
    var r := [head] + rest;
    if InOrder(r) {
      forall i, j | 0 <= i < j < |rest| ensures rest[i].1.sequence < rest[j].1.sequence {
        assert r[i + 1] == rest[i] && r[j + 1] == rest[j];
      }
      forall p | p in rest ensures head.1.sequence < p.1.sequence {
        var i :| 0 <= i < |rest| && rest[i] == p;
        assert r[0] == head && r[i + 1] == p;
      }
    }
  }

  lemma {:induction false} FilesLateOrder(db: Db, keys: set<nat>, later: map<nat, Db>)
    requires keys <= db.ms.Keys && keys <= later.Keys
    ensures InOrder(FilesLate(db, keys, later)) <==> PairsInOrder(db, keys, later)
    decreases keys
  {
    hide InOrder, PairsInOrder;
    if keys == {} {
      NoneLate(db, later);
    } else {
      var q := Least(keys);
      var n, rest := db.ms[q], FilesLate(db, keys - {q}, later);
      FilesLateOrder(db, keys - {q}, later);
      PairsHead(db, keys, later);
      if n in later[q].mn {
        LateAbove(db, keys - {q}, later, later[q].mn[n].sequence);
        OrderedHead((n, later[q].mn[n]), rest);
      } else {
        assert [] + rest == rest;
      }
    }
  }

  lemma NoneLate(db: Db, later: map<nat, Db>)
    ensures InOrder(FilesLate(db, {}, later)) && PairsInOrder(db, {}, later)
  {
    assert FilesLate(db, {}, later) == [];
  }

  lemma PairsHead(db: Db, keys: set<nat>, later: map<nat, Db>)
    requires keys <= db.ms.Keys && keys <= later.Keys && keys != {}
    ensures var q := Least(keys);
            PairsInOrder(db, keys, later) <==>
            && PairsInOrder(db, keys - {q}, later)
            && (StillThere(db, later, q) ==>
                  forall x | x in keys - {q} && StillThere(db, later, x) ::
                    LateSeq(db, later, q) < LateSeq(db, later, x))
  {
    hide StillThere, LateSeq;
    forall x | x in keys ensures Least(keys) <= x { LeastBelow(keys, x); }
  }

  /**
    A delta read beside writers stays in increasing order if and only if no file in it is committed again
    before its turn while a later one is not, or is before it.
   */
  lemma DeltaInOrderIff(e: Epoch, acts: seq<Action>, s: State, since: int, later: map<nat, Db>, cut: nat)
    requires Runs(Initial(e), acts, s, CODE) && Shaped(s) && since + 1 >= s.cut
    requires later.Keys == SeqsAbove(Now(s), since)
    requires forall q | q in later ::
               exists more, t :: Lasts(s, more, t) && Shaped(t) && later[q] == Now(t) && t.cut <= cut
    ensures InOrder(FilesLate(Now(s), later.Keys, later)) <==> PairsInOrder(Now(s), later.Keys, later)
    ensures var db := Now(s);
            forall q, x | q < x && StillThere(db, later, q) && StillThere(db, later, x)
                          && cut <= LateSeq(db, later, q) && cut <= LateSeq(db, later, x) ::
              LateSeq(db, later, q) < LateSeq(db, later, x) <==>
              LateSeq(db, later, q) == q || (LateSeq(db, later, x) != x
                                             && LateSeq(db, later, q) < LateSeq(db, later, x))
  {
    hide Runs, FilesLate, InOrder, PairsInOrder, LateDelta, PeekOk, Ages, FilesSince, Delta, Inverse;
    var db := Now(s);
    FilesLateOrder(db, later.Keys, later);
    InitialOk(e);
    RunKeeps(Initial(e), acts, s);
    DeltaIs(db, s.cut, since);
    forall q: nat | StillThere(db, later, q) && cut <= LateSeq(db, later, q)
      ensures q <= db.maxSequence && (LateSeq(db, later, q) == q || LateSeq(db, later, q) > db.maxSequence)
    {
      var more, t :| Lasts(s, more, t) && Shaped(t) && later[q] == Now(t) && t.cut <= cut;
      RunAges(s, more, t);
      RowAges(db, Now(t), t.cut, cut, q);
    }
  }

  lemma RowAges(db: Db, t: Db, first: nat, cut: nat, q: nat)
    requires Ages(db, t, first) && first <= cut && Bounded(db) && q in db.ms && db.ms[q] in db.mn && db.ms[q] in t.mn
    requires db.mn[db.ms[q]].sequence == q && cut <= t.mn[db.ms[q]].sequence
    ensures q <= db.maxSequence && (t.mn[db.ms[q]].sequence == q || t.mn[db.ms[q]].sequence > db.maxSequence)
  {}

  function Emptied(name: Name): WireInfo { WireInfo(name, None, false, 0, []) }

  const TWICE: Name := [97]
  const ONCE: Name := [98]

  lemma PutOnce(s: State, name: Name) returns (t: State)
    requires Shaped(s)
    ensures Lasts(s, [Resolve(Emptied(name))], t) && t == Write(s, Commit(Now(s), name, FromWire(Emptied(name))))
  {
    var a := Resolve(Emptied(name));
    t := Next(s, a);
    assert [a][1..] == [] && Runs(t, [], t, CODE);
  }

  lemma {:induction false} RunsOn(s: State, v: seq<Action>, m: State, w: seq<Action>, t: State)
    requires Runs(s, v, m, CODE) && Runs(m, w, t, CODE)
    ensures Runs(s, v + w, t, CODE)
    decreases |v|
  {
    hide Enabled, Next;
    if v == [] {
      assert v + w == w;
    } else {
      assert (v + w)[0] == v[0] && (v + w)[1..] == v[1..] + w;
      RunsOn(Next(s, v[0]), v[1..], m, w, t);
    }
  }

  /** Two files are committed, and after that one of them again. */
  lemma ThreeCommits(e: Epoch) returns (acts: seq<Action>, s: State, more: seq<Action>, t: State)
    ensures Runs(Initial(e), acts, s, CODE) && Lasts(s, more, t) && Shaped(s) && Shaped(t) && s.cut == 0
    ensures Now(s).ms == map[1 := TWICE, 2 := ONCE] && TWICE in Now(t).mn && ONCE in Now(t).mn
    ensures Now(t).mn[TWICE].sequence == 3 && Now(t).mn[ONCE].sequence == 2
  {
    hide Runs, Carried;
    var s1 := PutOnce(Initial(e), TWICE);
    s := PutOnce(s1, ONCE);
    t := PutOnce(s, TWICE);
    acts, more := [Resolve(Emptied(TWICE))] + [Resolve(Emptied(ONCE))], [Resolve(Emptied(TWICE))];
    RunsOn(Initial(e), [Resolve(Emptied(TWICE))], s1, [Resolve(Emptied(ONCE))], s);
  }

  /** A file that is committed again between the scan and its turn comes with a later sequence than the next one. */
  lemma DeltaOutOfOrder(e: Epoch)
    ensures exists acts, s, later: map<nat, Db> ::
              && Runs(Initial(e), acts, s, CODE) && Shaped(s) && s.cut == 0 && later.Keys == SeqsAbove(Now(s), 0)
              && (forall q | q in later :: exists more, t :: Lasts(s, more, t) && Shaped(t) && later[q] == Now(t))
              && later.Keys <= Now(s).ms.Keys
              && var r := FilesLate(Now(s), later.Keys, later); |r| == 2 && r[0].1.sequence > r[1].1.sequence
  {
    hide Runs, Lasts, FilesLate;
    var acts, s, more, t := ThreeCommits(e);
    LateValues(Now(s), Now(t));
    var later := map[1 := Now(t), 2 := Now(t)];
    assert later.Keys == {1, 2} == SeqsAbove(Now(s), 0);
  }

  lemma LateValues(db: Db, t: Db)
    requires db.ms == map[1 := TWICE, 2 := ONCE] && TWICE in t.mn && ONCE in t.mn
    ensures FilesLate(db, {1, 2}, map[1 := t, 2 := t]) == [(TWICE, t.mn[TWICE]), (ONCE, t.mn[ONCE])]
  {
    var later := map[1 := t, 2 := t];
    assert Least({1, 2}) == 1 && {1, 2} - {1} == {2} && Least({2}) == 2 && {2} - {2} == {};
    assert FilesLate(db, {}, later) == [];
    assert FilesLate(db, {2}, later) == [(ONCE, t.mn[ONCE])];
  }

  // ---------------------------------------------------------------- pruning

  lemma {:induction false} FilesAtFrame(db: Db, t: Db, keys: set<nat>)
    requires Sound(db, keys) && Sound(t, keys)
    requires forall q | q in keys :: t.ms[q] == db.ms[q] && t.mn[t.ms[q]] == db.mn[db.ms[q]]
    ensures FilesAt(t, keys) == FilesAt(db, keys)
    decreases keys
  {
    if keys != {} { FilesAtFrame(db, t, keys - {Least(keys)}); }
  }

  /** The row is one a delta from `since` reads. */
  predicate Reads(db: Db, row: Row, since: int) {
    match row
    case SeqRow(q) => q in db.ms && q > since
    case FileRow(n) => n in db.mn && db.mn[n].sequence > since
    case _ => false
  }

  lemma UnreadRow(f: Filter, db: Db, row: Row, cut: nat, since: int)
    requires IndexOk(db, cut) && since + 1 >= cut && !(Prunes(f, db, row) && Reads(db, row, since))
    ensures FilesSince(Pruned(f, db, row), since) == FilesSince(db, since)
  {
    var t := Pruned(f, db, row);
    DeltaIs(db, cut, since);
    assert SeqsAbove(t, since) == SeqsAbove(db, since);
    FilesAtFrame(db, t, SeqsAbove(db, since));
  }

  lemma {:induction false} FilesAtFrom(db: Db, keys: set<nat>, n: Name)
    requires keys <= db.ms.Keys && (n !in db.mn || forall q | q in keys :: db.ms[q] != n)
    ensures forall i | 0 <= i < |FilesAt(db, keys)| :: FilesAt(db, keys)[i].0 != n
    decreases keys
  {
    if keys != {} { FilesAtFrom(db, keys - {Least(keys)}, n); }
  }

  lemma ReadRow(f: Filter, db: Db, row: Row, cut: nat, since: int)
    requires IndexOk(db, cut) && since + 1 >= cut && Prunes(f, db, row) && Reads(db, row, since)
    ensures FilesSince(Pruned(f, db, row), since) != FilesSince(db, since)
  {
    var t := Pruned(f, db, row);
    var n := if row.SeqRow? then db.ms[row.seqno] else row.name;
    DeltaIs(db, cut, since);
    assert (n, db.mn[n]) in FilesSince(db, since);
    FilesAtFrom(t, SeqsAbove(t, since), n);
  }

  /** Pruning a row changes a delta exactly when the filter prunes it and the delta reads it. */
  lemma PruneDelta(f: Filter, db: Db, row: Row, cut: nat, since: int)
    requires IndexOk(db, cut) && since + 1 >= cut
    ensures FilesSince(Pruned(f, db, row), since) == FilesSince(db, since) <==>
        !(Prunes(f, db, row) && Reads(db, row, since))
  {
    hide FilesSince, Pruned, IndexOk;
    if Prunes(f, db, row) && Reads(db, row, since) {
      ReadRow(f, db, row, cut, since);
    } else {
      UnreadRow(f, db, row, cut, since);
    }
  }

  /** A delta from `floor - 1` or later never notices. */
  lemma FloorKeepsDelta(f: Filter, db: Db, row: Row, cut: nat, since: int)
    requires IndexOk(db, cut) && since + 1 >= cut && (f.floor.Some? ==> since + 1 >= f.floor.value)
    ensures FilesSince(Pruned(f, db, row), since) == FilesSince(db, since)
  {
    hide FilesSince, Pruned, IndexOk;
    PruneDelta(f, db, row, cut, since);
  }
}
