/**
  What goes in comes out: every entry a folder holds has the version, the deletion flag, the size and the
  block layout of something a peer sent under its name, and a complete file reads back as its bytes.
 */
module FolderBytes {
  import opened Prelude
  import opened Files
  import opened VersionVectors
  import opened FolderModel
  import opened FolderRuns
  import FolderContent
  import FolderGc
  import SnapshotRead

  // ---------------------------------------------------------------- entries and databases

  /** The entry is one of `sent`, with pointers. */
  predicate From(name: Name, f: FileInfo, sent: set<WireInfo>) { ToWire(name, f) in sent }

  predicate DbFrom(db: Db, sent: set<WireInfo>) {
    && (forall n | n in db.mn :: From(n, db.mn[n], sent))
    && forall k | k in db.mi :: From(k.1, db.mi[k], sent)
  }

  lemma CarrySame(name: Name, f: FileInfo, prior: seq<Block>)
    ensures ToWire(name, f.(blocks := Carry(f.blocks, prior))) == ToWire(name, f)
  {
    var g := f.(blocks := Carry(f.blocks, prior));
    forall i | 0 <= i < |f.blocks| ensures ToWire(name, g).blocks[i] == ToWire(name, f).blocks[i] {
      assert g.blocks[i] == CarryOne(f.blocks[i], prior);
    }
  }

  lemma PointSame(name: Name, f: FileInfo, hash: Hash, q: Option<nat>, d: Option<Bytes>)
    ensures ToWire(name, f.(blocks := Point(f.blocks, hash, q, d))) == ToWire(name, f)
  {}

  lemma CommitFrom(db: Db, name: Name, stored: FileInfo, sent: set<WireInfo>)
    requires DbFrom(db, sent) && From(name, stored, sent)
    ensures DbFrom(Commit(db, name, stored), sent)
  {
    if name in db.mn { CarrySame(name, stored, db.mn[name].blocks); }
    assert From(name, Commit(db, name, stored).mn[name], sent) by {
      var f := Carried(db, name, stored);
      assert ToWire(name, f.(sequence := db.maxSequence + 1)) == ToWire(name, f);
    }
  }

  lemma PutFrom(db: Db, f: WireInfo, sent: set<WireInfo>)
    requires DbFrom(db, sent) && f in sent
    ensures DbFrom(PutFile(db, f), sent)
  {
    WireRoundTrip(f);
    CommitFrom(db, f.name, FromWire(f), sent);
  }

  lemma LinkFrom(db: Db, slot: Slot, name: Name, hash: Hash, q: Option<nat>, d: Option<Bytes>, sent: set<WireInfo>)
    requires HasSlot(db, slot, name) && DbFrom(db, sent)
    ensures DbFrom(Link(db, slot, name, hash, q, d), sent)
  {
    PointSame(name, Entry(db, slot, name), hash, q, d);
  }

  lemma LinkedFrom(db: Db, e: Option<Epoch>, name: Name, hash: Hash, dir: Name, data: Bytes, q: nat,
                   sent: set<WireInfo>)
    requires CanLink(db, e, name, hash) && DbFrom(db, sent)
    ensures DbFrom(StoreInline(db, e, name, hash, data), sent)
    ensures DbFrom(ShareBlock(db, e, name, hash, dir, q), sent)
    ensures DbFrom(NewBlock(db, e, name, hash, data, q), sent)
  {
    hide Link, Dirname, Mentions;
    var slot := FindEntry(db, e, name).value;
    LinkFrom(db, slot, name, hash, None, Some(data), sent);
    var mb := if dir != Dirname(name) then db.mb[(Dirname(name), hash) := q] else db.mb;
    LinkFrom(db.(mb := mb, mr := db.mr + {(hash, name)}), slot, name, hash, Some(q), None, sent);
    LinkFrom(db.(bd := db.bd[q := data], mb := db.mb[(Dirname(name), hash) := q], mr := db.mr + {(hash, name)}),
             slot, name, hash, Some(q), None, sent);
  }

  // ---------------------------------------------------------------- runs

  /** What the step takes in. */
  function Intake(a: Action): set<WireInfo> {
    match a
    case Stage(f) => {f}
    case Compare(f) => {f}
    case Resolve(f) => {f}
    case CopyRead(f, _) => {f}
    case _ => {}
  }

  /** The captured blocks are those of the captured file. */
  predicate CopyFrom(c: Captured, sent: set<WireInfo>) {
    c.f in sent && ToWire(c.f.name, FromWire(c.f).(blocks := c.blocks)) == c.f
  }

  predicate CallsFrom(c: Calls, sent: set<WireInfo>) {
    && c.compared <= sent && (forall x | x in c.copies :: CopyFrom(x, sent))
    && forall p | p in c.peeked :: From(p.0, p.1, sent)
  }

  predicate AllFrom(s: State, sent: set<WireInfo>) {
    && Shaped(s) && (forall k | 0 <= k < |s.history| :: DbFrom(s.history[k], sent)) && CallsFrom(s.calls, sent)
  }

  lemma WriteFrom(s: State, t: State, db: Db, sent: set<WireInfo>)
    requires AllFrom(s, sent) && t.history == s.history + [db] && t.calls == s.calls && DbFrom(db, sent)
    requires t.flushed == s.flushed
    ensures AllFrom(t, sent)
  {
    hide DbFrom, CallsFrom;
  }

  lemma CapturedFrom(db: Db, f: WireInfo, from: Name, sent: set<WireInfo>)
    requires f in sent
    ensures CopyFrom(Captured(f, CopyBlocks(db, f, from)), sent)
  {
    WireRoundTrip(f);
    if from in db.mn { CarrySame(f.name, FromWire(f), db.mn[from].blocks); }
    assert FromWire(f).(blocks := FromWire(f).blocks) == FromWire(f);
  }

  lemma CopiedFrom(db: Db, c: Captured, sent: set<WireInfo>)
    requires DbFrom(db, sent) && CopyFrom(c, sent)
    ensures DbFrom(CommitCopy(db, c.f, c.blocks), sent)
  {
    hide Separated, Commit, ToWire;
    var refs := set p | p in Separated(c.blocks) :: (p.0, c.f.name);
    CommitFrom(db.(mr := db.mr + refs), c.f.name, FromWire(c.f).(blocks := c.blocks), sent);
  }

  lemma PromotedFrom(db: Db, e: Epoch, name: Name, sent: set<WireInfo>)
    requires DbFrom(db, sent) && (e, name) in db.mi
    ensures DbFrom(PromoteStaged(db, e, name), sent)
  {
    hide ToWire, Commit;
    CommitFrom(db.(mi := db.mi - {(e, name)}), name, db.mi[(e, name)], sent);
  }

  /** The database a writer leaves: staging, promotion and what removes. */
  lemma WrittenFrom(s: State, a: Action, sent: set<WireInfo>)
    requires a.Stage? || a.Complete? || a.LateComplete? || a.Restore? || a.GcInbox? || a.Peer?
    requires AllFrom(s, sent) && CanWrite(s, a, CODE) && Intake(a) <= sent
    ensures var t := Wrote(s, a); t.history == s.history + [Now(t)] && DbFrom(Now(t), sent)
  {
    hide CanMove, Moved, ToWire, PutFile, CommitCopy, PromoteStaged, StoreInline, ShareBlock, NewBlock, Carry, CanLink,
         Files.Complete, SeqsIn, SeqsOf, Told, Supplies, Separated, ValidInfo, ValidName;
    var db := Now(s);
    match a
    case Stage(f) => WireRoundTrip(f);
    case Complete(name, _) => PromotedFrom(db, s.epoch, name, sent);
    case LateComplete(name, _, _) => PromotedFrom(db, s.epoch, name, sent);
    case Restore(name, f) =>
    case GcInbox =>
    case Peer(_, _) =>
  }

  lemma PutsFrom(s: State, a: Action, sent: set<WireInfo>)
    requires AllFrom(s, sent) && (a.Metadata? || a.Resolve? || a.Copy?) && CanWrite(s, a, CODE) && Intake(a) <= sent
    ensures var t := Wrote(s, a); t.history == s.history + [Now(t)] && DbFrom(Now(t), sent)
  {
    hide CanMove, Moved, From, CopyFrom, PutFile, CommitCopy, SeqsIn, Separated;
    var db := Now(s);
    match a
    case Metadata(f) => PutFrom(db, f, sent);
    case Resolve(f) => PutFrom(db, f, sent);
    case Copy(c) => CopiedFrom(db, c, sent);
  }

  lemma LinksFrom(s: State, a: Action, sent: set<WireInfo>)
    requires AllFrom(s, sent) && (a.Inline? || a.Fresh? || a.Share?) && CanWrite(s, a, CODE)
    ensures var t := Wrote(s, a); t.history == s.history + [Now(t)] && DbFrom(Now(t), sent)
  {
    hide CanMove, Moved, From, StoreInline, ShareBlock, NewBlock, CanLink, Supplies;
    var db := Now(s);
    match a
    case Inline(name, hash, data) => LinkedFrom(db, Some(s.epoch), name, hash, [], data, 0, sent);
    case Fresh(name, hash, data, q) => LinkedFrom(db, Some(s.epoch), name, hash, [], data, q, sent);
    case Share(name, f) => LinkedFrom(db, Some(s.epoch), name, f.hash, f.dir, [], f.seqno, sent);
  }

  /** Steps that take something in, or remember an entry. */
  lemma NotedFrom(s: State, a: Action, sent: set<WireInfo>)
    requires AllFrom(s, sent) && (a.Compare? || a.CopyRead? || a.Peek?) && CanMove(s, a, CODE) && Intake(a) <= sent
    ensures AllFrom(Moved(s, a), sent)
  {
    hide CanWrite, Wrote, CopyBlocks, MetadataOnly, CopyFrom, From;
    if a.CopyRead? { CapturedFrom(Now(s), a.f, a.from, sent); }
  }

  lemma QuietFrom(s: State, a: Action, sent: set<WireInfo>)
    requires AllFrom(s, sent) && Quiet(a) && !a.Compare? && !a.CopyRead? && !a.Peek? && CanMove(s, a, CODE)
    ensures AllFrom(Moved(s, a), sent)
  {
    hide CanWrite, Wrote, CanMove, Moved, CopyFrom, From, DbFrom;
    QuietFrame(s, a);
    QuietCompared(s, a);
  }

  lemma QuietCompared(s: State, a: Action)
    requires Shaped(s) && Quiet(a) && !a.Compare? && CanMove(s, a, CODE)
    ensures Moved(s, a).calls.compared == s.calls.compared
  {
    hide CopyBlocks, MetadataOnly, BlockSafe, Refers, FileSeqs, LiveSeqs, ScanSeqs, ScanHashes, Visible, JudgedInTime,
         PeerFloor, Record, CanWrite, Wrote;
  }

  lemma TakenFrom(s: State, hash: Hash, sent: set<WireInfo>)
    requires AllFrom(s, sent) && CanMove(s, Number(hash), CODE)
    ensures AllFrom(Moved(s, Number(hash)), sent)
  {
    hide Allocate, From, CopyFrom, CanWrite, Wrote;
  }

  lemma PrunedFrom(f: Filter, db: Db, row: Row, sent: set<WireInfo>)
    requires DbFrom(db, sent)
    ensures DbFrom(Pruned(f, db, row), sent)
  {
    hide From, Prunes;
  }

  lemma LostFrom(s: State, a: Action, sent: set<WireInfo>)
    requires AllFrom(s, sent) && (a.Drop? || a.Install? || a.Crash?) && CanMove(s, a, CODE)
    ensures AllFrom(Moved(s, a), sent)
  {
    hide CanWrite, Wrote, Pruned, From, CopyFrom, JudgedInTime, StagedSeqs;
    var t := Moved(s, a);
    if a.Drop? {
      forall k | 0 <= k < |t.history| ensures DbFrom(t.history[k], sent) {
        PrunedFrom(FilterOf(s, a.job), s.history[k], a.row, sent);
      }
    }
  }

  lemma StepFrom(s: State, a: Action, sent: set<WireInfo>)
    requires AllFrom(s, sent) && Enabled(s, a, CODE) && Intake(a) <= sent
    ensures AllFrom(Next(s, a), sent)
  {
    hide AllFrom, DbFrom, CanWrite, CanMove, Wrote, Moved, Intake;
    if Writes(a) {
      if a.Inline? || a.Fresh? || a.Share? { LinksFrom(s, a, sent); }
      else if a.Metadata? || a.Resolve? || a.Copy? { PutsFrom(s, a, sent); }
      else { WrittenFrom(s, a, sent); }
      WroteFrame(s, a);
      WriteFrom(s, Wrote(s, a), Now(Wrote(s, a)), sent);
    } else if a.Compare? || a.CopyRead? || a.Peek? {
      NotedFrom(s, a, sent);
    } else if Quiet(a) {
      QuietFrom(s, a, sent);
    } else if a.Number? {
      TakenFrom(s, a.hash, sent);
    } else {
      LostFrom(s, a, sent);
    }
  }

  lemma {:induction false} RunFrom(s: State, acts: seq<Action>, t: State, sent: set<WireInfo>, pre: Premises)
    requires Runs(s, acts, t, pre) && AllFrom(s, sent) && forall i | 0 <= i < |acts| :: Intake(acts[i]) <= sent
    ensures AllFrom(t, sent)
    decreases |acts|
  {
    hide AllFrom, Enabled, Next, Intake;
    if acts != [] {
      Weaken(s, acts[0], pre);
      StepFrom(s, acts[0], sent);
      forall i | 0 <= i < |acts[1..]| ensures Intake(acts[1..][i]) <= sent { assert acts[1..][i] == acts[i + 1]; }
      RunFrom(Next(s, acts[0]), acts[1..], t, sent, pre);
    }
  }

  function Sent(acts: seq<Action>): set<WireInfo> { set i, f | 0 <= i < |acts| && f in Intake(acts[i]) :: f }

  /**
    After any run each entry, committed or staged, is something that was sent under its name: the same
    version, deletion flag and size, and block by block the same offset, size and hash.
   */
  lemma StoredAsSent(e: Epoch, acts: seq<Action>, s: State, pre: Premises)
    requires Runs(Initial(e), acts, s, pre)
    ensures Shaped(s)
    ensures forall n | n in Now(s).mn :: ToWire(n, Now(s).mn[n]) in Sent(acts)
    ensures forall k | k in Now(s).mi :: ToWire(k.1, Now(s).mi[k]) in Sent(acts)
  {
    hide Runs, ToWire;
    forall i | 0 <= i < |acts| ensures Intake(acts[i]) <= Sent(acts) {}
    RunFrom(Initial(e), acts, s, Sent(acts), pre);
    assert DbFrom(Now(s), Sent(acts));
    assert forall n | n in Now(s).mn :: From(n, Now(s).mn[n], Sent(acts));
    assert forall k | k in Now(s).mi :: From(k.1, Now(s).mi[k], Sent(acts));
  }

  // ---------------------------------------------------------------- reading back

  /** What each block resolves to. */
  function Fetch(bd: map<nat, Bytes>, blocks: seq<Block>): (r: SnapshotRead.Fetched)
    ensures |r| == |blocks|
  {
    seq(|blocks|, i requires 0 <= i < |blocks| =>
          var r := FolderModel.Resolve(bd, blocks[i]); if r.Data? then Some(r.bytes) else None)
  }

  /** The bytes that `blocks` stand for: of each hash's content as many as the block declares. */
  function Content(blocks: seq<WireBlock>, supplied: map<Hash, Bytes>, n: nat): Bytes
    requires n <= |blocks|
    requires forall i | 0 <= i < n ::
               blocks[i].hash in supplied && 0 <= blocks[i].size <= |supplied[blocks[i].hash]|
  {
    if n == 0 then []
    else Content(blocks, supplied, n - 1) + supplied[blocks[n - 1].hash][..blocks[n - 1].size]
  }

  /** Everything taken in has passed validation. */
  predicate Validated(acts: seq<Action>) { forall f | f in Sent(acts) :: ValidInfo(f) }

  /** Every block of a complete entry resolves to what was supplied with its hash. */
  lemma FetchIs(s: State, name: Name)
    requires FolderContent.ContentInv(s) && name in Now(s).mn && Files.Complete(Now(s).mn[name].blocks)
    requires FolderGc.Kept(Now(s))
    ensures var blocks := Now(s).mn[name].blocks;
            forall i | 0 <= i < |blocks| ::
              blocks[i].hash in s.supplied && Fetch(Now(s).bd, blocks)[i] == Some(s.supplied[blocks[i].hash])
  {
    var db := Now(s);
    var blocks := db.mn[name].blocks;
    assert FolderContent.ContentOk(db, s.owner, s.supplied) && FolderContent.FileOk(db.mn[name], s.owner, s.supplied);
    forall i | 0 <= i < |blocks|
      ensures blocks[i].hash in s.supplied && Fetch(db.bd, blocks)[i] == Some(s.supplied[blocks[i].hash])
    {
      var b := blocks[i];
      assert b.HasPointer() && FolderContent.BlockOk(b, s.owner, s.supplied) && b in blocks;
      if b.inlineData.None? {
        assert b.blockseq.value in SeqsOf(db.mn[name]);
        FolderContent.OwnedIsLarge(s, b.blockseq.value);
      }
    }
  }

  lemma {:induction false} WholeIsContent(blocks: seq<WireBlock>, data: SnapshotRead.Fetched,
                                          supplied: map<Hash, Bytes>, n: nat)
    requires n <= |blocks| == |data| && Contiguous(blocks)
    requires forall i | 0 <= i < |blocks| :: blocks[i].hash in supplied && data[i] == Some(supplied[blocks[i].hash])
    requires forall i | 0 <= i < |blocks| :: 0 <= blocks[i].size <= |supplied[blocks[i].hash]|
    ensures SnapshotRead.Whole(blocks, data, n) == Content(blocks, supplied, n)
  {
    if n > 0 {
      WholeIsContent(blocks, data, supplied, n - 1);
      SnapshotRead.BlockFacts(blocks, n - 1);
      assert SnapshotRead.Padded(data[n - 1], blocks[n - 1].size) ==
             supplied[blocks[n - 1].hash][..blocks[n - 1].size];
    }
  }

  /** A read of the whole file is served if and only if no block's content is too short. */
  lemma ServedIff(f: WireInfo, data: SnapshotRead.Fetched)
    requires ValidInfo(f) && |data| == |f.blocks| && forall i | 0 <= i < |data| :: data[i].Some?
    ensures SnapshotRead.AllServed(f.blocks, data, 0, f.size, |data|) <==>
            forall i | 0 <= i < |data| :: f.blocks[i].size <= |data[i].value|
  {
    forall i | 0 <= i < |data|
      ensures SnapshotRead.Served(f.blocks[i], data[i], 0, f.size) <==> f.blocks[i].size <= |data[i].value|
    {
      SnapshotRead.BlockFacts(f.blocks, i);
      SnapshotRead.CoveredMonotone(f.blocks, i + 1, |f.blocks|);
      assert f.blocks[..|f.blocks|] == f.blocks;
    }
  }

  /**
    After any run under the collection premises, a complete committed file is laid out as validated, its
    blocks resolve to the contents supplied for their hashes, and a read of the whole file is served if and
    only if each content is at least as long as its block declares; what is read then is `size` bytes,
    content after content.
   */
  lemma ReadsBack(e: Epoch, acts: seq<Action>, s: State, name: Name)
    requires Runs(Initial(e), acts, s, FolderGc.STRICT) && Validated(acts) && Shaped(s) && name in Now(s).mn
    requires Files.Complete(Now(s).mn[name].blocks)
    ensures var f, data := ToWire(name, Now(s).mn[name]), Fetch(Now(s).bd, Now(s).mn[name].blocks);
            && ValidInfo(f) && (forall i | 0 <= i < |f.blocks| :: f.blocks[i].hash in s.supplied)
            && var long := forall i | 0 <= i < |f.blocks| ::
                             0 <= f.blocks[i].size <= |s.supplied[f.blocks[i].hash]|;
            && (SnapshotRead.AllServed(f.blocks, data, 0, f.size, |f.blocks|) <==> long)
            && (long && f.blocks != [] ==>
                  && SnapshotRead.Whole(f.blocks, data, |f.blocks|) == Content(f.blocks, s.supplied, |f.blocks|)
                  && |Content(f.blocks, s.supplied, |f.blocks|)| == f.size)
  {
    hide Runs, FolderContent.ContentInv, FolderGc.Kept;
    StoredAsSent(e, acts, s, FolderGc.STRICT);
    FolderGc.CollectionIsSafe(e, acts, s);
    FolderContent.InitialOk(e);
    FolderContent.RunKeeps(Initial(e), acts, s, FolderGc.STRICT);
    FetchIs(s, name);
    var f, data := ToWire(name, Now(s).mn[name]), Fetch(Now(s).bd, Now(s).mn[name].blocks);
    assert f in Sent(acts);
    Joined(f, data, s.supplied);
  }

  lemma Joined(f: WireInfo, data: SnapshotRead.Fetched, supplied: map<Hash, Bytes>)
    requires ValidInfo(f) && |data| == |f.blocks|
    requires forall i | 0 <= i < |data| ::
               f.blocks[i].hash in supplied && data[i] == Some(supplied[f.blocks[i].hash])
    ensures var long := forall i | 0 <= i < |f.blocks| :: 0 <= f.blocks[i].size <= |supplied[f.blocks[i].hash]|;
            && (SnapshotRead.AllServed(f.blocks, data, 0, f.size, |f.blocks|) <==> long)
            && (long && f.blocks != [] ==>
                  && SnapshotRead.Whole(f.blocks, data, |f.blocks|) == Content(f.blocks, supplied, |f.blocks|)
                  && |Content(f.blocks, supplied, |f.blocks|)| == f.size)
  {
    hide SnapshotRead.Served, SnapshotRead.Whole, Content;
    ServedIff(f, data);
    forall i | 0 <= i < |f.blocks| ensures f.blocks[i].size > 0 { SnapshotRead.BlockFacts(f.blocks, i); }
    if forall i | 0 <= i < |f.blocks| :: 0 <= f.blocks[i].size <= |supplied[f.blocks[i].hash]| {
      WholeIsContent(f.blocks, data, supplied, |f.blocks|);
      assert f.blocks[..|f.blocks|] == f.blocks;
    }
  }

  /** The contents are long enough for the blocks. */
  predicate Long(f: WireInfo, supplied: map<Hash, Bytes>) {
    forall i | 0 <= i < |f.blocks| ::
      f.blocks[i].hash in supplied && 0 <= f.blocks[i].size <= |supplied[f.blocks[i].hash]|
  }

  /**
    A read of a whole file out of the database that a run under the collection premises has left: exactly
    the file's content, or an error if some content is too short.
   */
  method ReadFile(db: Db, name: Name, len: nat, ghost e: Epoch, ghost acts: seq<Action>, ghost s: State)
    returns (r: SnapshotRead.Outcome)
    requires Runs(Initial(e), acts, s, FolderGc.STRICT) && Validated(acts) && Shaped(s) && db == Now(s)
    requires name in db.mn && Files.Complete(db.mn[name].blocks) && !db.mn[name].deleted && db.mn[name].blocks != []
    requires 0 < len <= SnapshotRead.U64_MAX && db.mn[name].size <= len
    ensures var f := ToWire(name, db.mn[name]);
            if Long(f, s.supplied) then r == SnapshotRead.Read(Content(f.blocks, s.supplied, |f.blocks|))
            else r.IoError?
  {
    hide Runs, SnapshotRead.Whole, SnapshotRead.AllServed, Content, Contiguous, Covered;
    ReadsBack(e, acts, s, name);
    var f, data := ToWire(name, db.mn[name]), Fetch(db.bd, db.mn[name].blocks);
    SizePositive(f);
    r := SnapshotRead.ReadBytes(Some(f), data, 0, len);
    if Long(f, s.supplied) {
      var whole := SnapshotRead.Whole(f.blocks, data, |f.blocks|);
      assert whole[0..f.size] == whole;
    }
  }

  lemma SizePositive(f: WireInfo)
    requires ValidInfo(f) && f.blocks != []
    ensures f.size > 0
  {
    SnapshotRead.BlockFacts(f.blocks, |f.blocks| - 1);
    assert f.blocks[..|f.blocks|] == f.blocks;
  }

  /** An update that counts as one of metadata only asks no more of the contents than the entry did. */
  lemma MetadataKeepsReading(name: Name, local: FileInfo, f: WireInfo, supplied: map<Hash, Bytes>)
    requires MetadataOnly(local, f)
    ensures Long(ToWire(name, local), supplied) <==> Long(f, supplied)
  {
    var g := ToWire(name, local);
    assert forall i | 0 <= i < |f.blocks| ::
        g.blocks[i].hash == f.blocks[i].hash && g.blocks[i].size == f.blocks[i].size;
  }
}
