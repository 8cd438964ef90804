/**
  Block numbers and block contents over all runs, crashes included.

  No number is handed out twice, and every pointer kept anywhere, in any state a crash can fall back
  to, leads to the data that came with its hash.
 */
module FolderContent {
  import opened Prelude
  import opened Files
  import opened VersionVectors
  import opened StoreKeys
  import opened FolderModel
  import opened FolderRuns

  type Owners = map<nat, Hash>
  type Supply = map<Hash, Bytes>

  /** The block's number was handed out for its hash; its inline bytes are those of its hash. */
  predicate BlockOk(b: Block, owner: Owners, supplied: Supply) {
    && (b.blockseq.Some? ==> |b.hash| == HASH_LEN && b.blockseq.value in owner && owner[b.blockseq.value] == b.hash)
    && (b.blockseq.Some? ==> b.hash in supplied)
    && (b.inlineData.Some? ==> b.hash in supplied && supplied[b.hash] == b.inlineData.value)
  }

  predicate FileOk(f: FileInfo, owner: Owners, supplied: Supply) {
    forall i | 0 <= i < |f.blocks| :: BlockOk(f.blocks[i], owner, supplied)
  }

  predicate ContentOk(db: Db, owner: Owners, supplied: Supply) {
    && (forall n | n in db.mn :: FileOk(db.mn[n], owner, supplied))
    && (forall k | k in db.mi :: FileOk(db.mi[k], owner, supplied))
    && (forall q | q in db.bd :: q in owner && owner[q] in supplied && db.bd[q] == supplied[owner[q]])
    && (forall k | k in db.mb :: db.mb[k] in owner && owner[db.mb[k]] == k.1 && k.1 in supplied)
  }

  // ---------------------------------------------------------------- entries

  lemma WireOk(f: WireInfo, owner: Owners, supplied: Supply)
    ensures FileOk(FromWire(f), owner, supplied)
  {}

  lemma CarryOk(f: FileInfo, prior: FileInfo, owner: Owners, supplied: Supply)
    requires FileOk(f, owner, supplied) && FileOk(prior, owner, supplied)
    ensures FileOk(f.(blocks := Carry(f.blocks, prior.blocks)), owner, supplied)
  {
    forall i | 0 <= i < |f.blocks| ensures BlockOk(CarryOne(f.blocks[i], prior.blocks), owner, supplied) {
      var src := FirstPointed(prior.blocks, f.blocks[i].hash);
      if src.Some? {
        var k :| 0 <= k < |prior.blocks| && prior.blocks[k] == src.value;
        assert BlockOk(prior.blocks[k], owner, supplied);
      }
    }
  }

  lemma PointOk(f: FileInfo, hash: Hash, q: Option<nat>, d: Option<Bytes>, owner: Owners, supplied: Supply)
    requires FileOk(f, owner, supplied)
    requires q.Some? ==> |hash| == HASH_LEN && q.value in owner && owner[q.value] == hash && hash in supplied
    requires d.Some? ==> hash in supplied && supplied[hash] == d.value
    ensures FileOk(f.(blocks := Point(f.blocks, hash, q, d)), owner, supplied)
  {
    var g := f.(blocks := Point(f.blocks, hash, q, d));
    forall i | 0 <= i < |g.blocks| ensures BlockOk(g.blocks[i], owner, supplied) {
      assert BlockOk(f.blocks[i], owner, supplied);
    }
  }

  // ---------------------------------------------------------------- databases

  lemma Grow(db: Db, owner: Owners, supplied: Supply, owner': Owners, supplied': Supply)
    requires ContentOk(db, owner, supplied)
    requires owner.Keys <= owner'.Keys && forall q | q in owner :: owner'[q] == owner[q]
    requires supplied.Keys <= supplied'.Keys && forall h | h in supplied :: supplied'[h] == supplied[h]
    ensures ContentOk(db, owner', supplied')
  {
    forall n | n in db.mn
      ensures FileOk(db.mn[n], owner', supplied')
    {
      GrowFile(db.mn[n], owner, supplied, owner', supplied');
    }
    forall k | k in db.mi
      ensures FileOk(db.mi[k], owner', supplied')
    {
      GrowFile(db.mi[k], owner, supplied, owner', supplied');
    }
  }

  lemma GrowFile(f: FileInfo, owner: Owners, supplied: Supply, owner': Owners, supplied': Supply)
    requires FileOk(f, owner, supplied)
    requires owner.Keys <= owner'.Keys && forall q | q in owner :: owner'[q] == owner[q]
    requires supplied.Keys <= supplied'.Keys && forall h | h in supplied :: supplied'[h] == supplied[h]
    ensures FileOk(f, owner', supplied')
  {
    forall i | 0 <= i < |f.blocks| ensures BlockOk(f.blocks[i], owner', supplied') {
      assert BlockOk(f.blocks[i], owner, supplied);
    }
  }

  lemma CommitOk(db: Db, name: Name, stored: FileInfo, owner: Owners, supplied: Supply)
    requires ContentOk(db, owner, supplied) && FileOk(stored, owner, supplied)
    ensures ContentOk(Commit(db, name, stored), owner, supplied)
  {
    if name in db.mn { CarryOk(stored, db.mn[name], owner, supplied); }
    var c := Carried(db, name, stored);
    assert FileOk(c, owner, supplied);
    assert FileOk(c.(sequence := db.maxSequence + 1), owner, supplied);
  }

  lemma CapturedOk(db: Db, f: WireInfo, from: Name, owner: Owners, supplied: Supply)
    requires ContentOk(db, owner, supplied)
    ensures FileOk(FromWire(f).(blocks := CopyBlocks(db, f, from)), owner, supplied)
  {
    WireOk(f, owner, supplied);
    if from in db.mn { CarryOk(FromWire(f), db.mn[from], owner, supplied); }
  }

  lemma CopyOk(db: Db, f: WireInfo, blocks: seq<Block>, owner: Owners, supplied: Supply)
    requires ContentOk(db, owner, supplied) && FileOk(FromWire(f).(blocks := blocks), owner, supplied)
    ensures ContentOk(CommitCopy(db, f, blocks), owner, supplied)
  {
    var refs := set p | p in Separated(blocks) :: (p.0, f.name);
    CommitOk(db.(mr := db.mr + refs), f.name, FromWire(f).(blocks := blocks), owner, supplied);
  }

  lemma PromoteOk(db: Db, e: Epoch, name: Name, owner: Owners, supplied: Supply)
    requires ContentOk(db, owner, supplied) && (e, name) in db.mi
    ensures ContentOk(PromoteStaged(db, e, name), owner, supplied)
  {
    CommitOk(db.(mi := db.mi - {(e, name)}), name, db.mi[(e, name)], owner, supplied);
  }

  lemma LinkOk(db: Db, slot: Slot, name: Name, hash: Hash, q: Option<nat>, d: Option<Bytes>, owner: Owners,
               supplied: Supply)
    requires ContentOk(db, owner, supplied) && HasSlot(db, slot, name)
    requires q.Some? ==> |hash| == HASH_LEN && q.value in owner && owner[q.value] == hash && hash in supplied
    requires d.Some? ==> hash in supplied && supplied[hash] == d.value
    ensures ContentOk(Link(db, slot, name, hash, q, d), owner, supplied)
  {
    hide Point;
    PointOk(Entry(db, slot, name), hash, q, d, owner, supplied);
  }

  lemma ShareOk(db: Db, e: Option<Epoch>, name: Name, hash: Hash, dir: Name, q: nat, owner: Owners, supplied: Supply)
    requires ContentOk(db, owner, supplied) && CanLink(db, e, name, hash) && |hash| == HASH_LEN
    requires q in owner && owner[q] == hash && hash in supplied
    ensures ContentOk(ShareBlock(db, e, name, hash, dir, q), owner, supplied)
  {
    hide Point, Dirname, Mentions;
    var mb := if dir != Dirname(name) then db.mb[(Dirname(name), hash) := q] else db.mb;
    var mid := db.(mb := mb, mr := db.mr + {(hash, name)});
    LinkOk(mid, FindEntry(db, e, name).value, name, hash, Some(q), None, owner, supplied);
  }

  lemma NewOk(db: Db, e: Option<Epoch>, name: Name, hash: Hash, data: Bytes, q: nat, owner: Owners, supplied: Supply)
    requires ContentOk(db, owner, supplied) && CanLink(db, e, name, hash) && |hash| == HASH_LEN
    requires q in owner && owner[q] == hash && hash in supplied && supplied[hash] == data
    ensures ContentOk(NewBlock(db, e, name, hash, data, q), owner, supplied)
  {
    hide Point, Dirname, Mentions;
    var mid := db.(bd := db.bd[q := data], mb := db.mb[(Dirname(name), hash) := q], mr := db.mr + {(hash, name)});
    LinkOk(mid, FindEntry(db, e, name).value, name, hash, Some(q), None, owner, supplied);
  }

  lemma PruneOk(f: Filter, db: Db, row: Row, owner: Owners, supplied: Supply)
    requires ContentOk(db, owner, supplied)
    ensures ContentOk(Pruned(f, db, row), owner, supplied)
  {}

  // ---------------------------------------------------------------- numbers

  function NextOf(db: Db): nat { if db.nextBlockseq.Some? then db.nextBlockseq.value else 0 }

  /** Numbers handed out lie below the unused rest of the range; that lies below every durable counter. */
  predicate NumbersOk(s: State) {
    && s.range.next <= s.range.end && (s.range.next < s.range.end ==> s.range.next >= MIN_BLOCK_SEQ)
    && (forall q | q in s.owner :: MIN_BLOCK_SEQ <= q < s.range.next)
    && forall k | s.flushed <= k < |s.history| :: s.range.end <= NextOf(s.history[k])
  }

  predicate SightingOk(f: Sighting, owner: Owners, supplied: Supply) {
    |f.hash| == HASH_LEN && f.seqno in owner && owner[f.seqno] == f.hash && f.hash in supplied
  }

  /** What calls have read was handed out for its hash, whatever has happened since. */
  predicate CallsOk(c: Calls, owner: Owners, supplied: Supply) {
    && (forall h | h in c.cleared :: |h| == HASH_LEN)
    && (forall p | p in c.referred :: |p.0| == HASH_LEN)
    && (forall f | f in c.spotted :: SightingOk(f, owner, supplied))
    && (forall f | f in c.found :: SightingOk(f, owner, supplied))
    && (forall x | x in c.copies :: FileOk(FromWire(x.f).(blocks := x.blocks), owner, supplied))
    && forall p | p in c.peeked :: FileOk(p.1, owner, supplied)
  }

  /** Numbers that wait for their data have no row anywhere, doomed or not. */
  predicate TakenOk(s: State) {
    && s.doomed <= s.owner.Keys
    && forall q | q in s.taken ::
         && |s.taken[q]| == HASH_LEN && q in s.owner && s.owner[q] == s.taken[q] && q !in s.doomed
         && forall k | 0 <= k < |s.history| :: q !in s.history[k].bd
  }

  predicate ContentInv(s: State) {
    && Shaped(s) && NumbersOk(s) && CallsOk(s.calls, s.owner, s.supplied) && TakenOk(s)
    && forall k | 0 <= k < |s.history| :: ContentOk(s.history[k], s.owner, s.supplied)
  }

  lemma CallsGrow(c: Calls, owner: Owners, supplied: Supply, owner': Owners, supplied': Supply)
    requires CallsOk(c, owner, supplied)
    requires owner.Keys <= owner'.Keys && forall q | q in owner :: owner'[q] == owner[q]
    requires supplied.Keys <= supplied'.Keys && forall h | h in supplied :: supplied'[h] == supplied[h]
    ensures CallsOk(c, owner', supplied')
  {
    forall x | x in c.copies ensures FileOk(FromWire(x.f).(blocks := x.blocks), owner', supplied') {
      GrowFile(FromWire(x.f).(blocks := x.blocks), owner, supplied, owner', supplied');
    }
    forall p | p in c.peeked ensures FileOk(p.1, owner', supplied') {
      GrowFile(p.1, owner, supplied, owner', supplied');
    }
  }

  /** A number taken is new, at least 1024, and below the counter in every state a crash can leave. */
  lemma NumberIsNew(s: State, hash: Hash)
    requires Shaped(s) && NumbersOk(s)
    ensures Taken(s) !in s.owner && Taken(s) >= MIN_BLOCK_SEQ
    ensures var t := Take(s, hash);
            && Shaped(t) && NumbersOk(t) && t.owner == s.owner[Taken(s) := hash]
            && forall k | t.flushed <= k < |t.history| :: Taken(s) < NextOf(t.history[k])
  {
    var a, t := Allocate(s.range, Now(s).nextBlockseq), Take(s, hash);
    if !a.refilled { assert t.history == s.history && t.flushed == s.flushed; }
  }

  // ---------------------------------------------------------------- steps

  /** A batch that leaves the counter alone; data may have come with it, under a number that waited for it. */
  lemma Append(s: State, db: Db, t: State)
    requires ContentInv(s) && t.history == s.history + [db] && t.flushed == s.flushed && t.range == s.range
    requires t.owner == s.owner && t.calls == s.calls && t.doomed == s.doomed
    requires db.nextBlockseq == Now(s).nextBlockseq && ContentOk(db, t.owner, t.supplied)
    requires s.supplied.Keys <= t.supplied.Keys && forall h | h in s.supplied :: t.supplied[h] == s.supplied[h]
    requires t.taken.Keys <= s.taken.Keys && forall q | q in t.taken :: t.taken[q] == s.taken[q]
    requires forall q | q in t.taken :: q in db.bd ==> q in Now(s).bd
    ensures ContentInv(t)
  {
    hide ContentOk, CallsOk;
    CallsGrow(s.calls, s.owner, s.supplied, t.owner, t.supplied);
    var last := |s.history| - 1;
    forall k | 0 <= k < |t.history| ensures ContentOk(t.history[k], t.owner, t.supplied) {
      if k < |s.history| {
        assert t.history[k] == s.history[k];
        Grow(s.history[k], s.owner, s.supplied, t.owner, t.supplied);
      }
    }
    forall k | t.flushed <= k < |t.history| ensures t.range.end <= NextOf(t.history[k]) {
      if k < |s.history| {
        assert t.history[k] == s.history[k];
      } else {
        assert s.range.end <= NextOf(s.history[last]);
      }
    }
    forall q, k | q in t.taken && 0 <= k < |t.history| ensures q !in t.history[k].bd {
      assert q !in s.history[if k < |s.history| then k else last].bd;
    }
  }

  /** The number taken joins those that wait for their data. */
  lemma NumberKeeps(s: State, hash: Hash)
    requires ContentInv(s) && |hash| == HASH_LEN
    ensures ContentInv(Take(s, hash).(taken := s.taken[Taken(s) := hash]))
  {
    hide ContentOk, NumbersOk, CallsOk, Take, Taken, TakenOk;
    NumberIsNew(s, hash);
    TakeFrame(s, hash);
    var t := Take(s, hash).(taken := s.taken[Taken(s) := hash]);
    CallsGrow(s.calls, s.owner, s.supplied, t.owner, t.supplied);
    TakenKeeps(s, t, hash);
    NumbersFrame(Take(s, hash), t);
    forall k | 0 <= k < |t.history| ensures ContentOk(t.history[k], t.owner, t.supplied) {
      var m := Before(s, k);
      assert ContentOk(s.history[m], s.owner, s.supplied);
      Grow(s.history[m], s.owner, s.supplied, t.owner, t.supplied);
      Same(s.history[m], t.history[k], t.owner, t.supplied);
    }
  }

  lemma NumbersFrame(s: State, t: State)
    requires NumbersOk(s) && t.range == s.range && t.owner == s.owner
    requires t.history == s.history && t.flushed == s.flushed
    ensures NumbersOk(t)
  {}

  lemma TakenKeeps(s: State, t: State, hash: Hash)
    requires ContentInv(s) && Taken(s) !in s.owner && |hash| == HASH_LEN && t.doomed == s.doomed
    requires t.owner == s.owner[Taken(s) := hash] && t.taken == s.taken[Taken(s) := hash]
    requires |s.history| <= |t.history| <= |s.history| + 1
    requires forall k | 0 <= k < |t.history| :: t.history[k].bd == s.history[Before(s, k)].bd
    ensures TakenOk(t)
  {
    forall k | 0 <= k < |t.history| ensures Taken(s) !in t.history[k].bd {
      assert ContentOk(s.history[Before(s, k)], s.owner, s.supplied);
    }
  }

  /** The entry of the history that entry `k` was written over. */
  function Before(s: State, k: nat): nat
    requires |s.history| > 0
  {
    if k < |s.history| then k else |s.history| - 1
  }

  lemma TakeFrame(s: State, hash: Hash)
    requires Shaped(s)
    ensures var t := Take(s, hash);
            && Shaped(t) && t == s.(history := t.history, flushed := t.flushed, range := t.range, owner := t.owner)
            && |s.history| <= |t.history| <= |s.history| + 1
            && forall k | 0 <= k < |t.history| ::
                 var db := s.history[Before(s, k)];
                 t.history[k] == db.(nextBlockseq := t.history[k].nextBlockseq)
  {}

  lemma Same(db: Db, t: Db, owner: Owners, supplied: Supply)
    requires ContentOk(db, owner, supplied) && t.mn == db.mn && t.mi == db.mi && t.bd == db.bd && t.mb == db.mb
    ensures ContentOk(t, owner, supplied)
  {}

  lemma FreshKeeps(s: State, name: Name, hash: Hash, data: Bytes, q: nat)
    requires Enabled(s, Fresh(name, hash, data, q), CODE) && ContentInv(s)
    ensures ContentInv(Next(s, Fresh(name, hash, data, q)))
  {
    hide ContentOk, NewBlock, NumbersOk, CallsOk, Mentions;
    var t := Next(s, Fresh(name, hash, data, q));
    Grow(Now(s), s.owner, s.supplied, t.owner, t.supplied);
    NewOk(Now(s), Some(s.epoch), name, hash, data, q, t.owner, t.supplied);
    NewFrame(Now(s), Some(s.epoch), name, hash, data, q);
    Append(s, NewBlock(Now(s), Some(s.epoch), name, hash, data, q), t);
  }

  lemma NewFrame(db: Db, e: Option<Epoch>, name: Name, hash: Hash, data: Bytes, q: nat)
    requires CanLink(db, e, name, hash)
    ensures var t := NewBlock(db, e, name, hash, data, q); t.nextBlockseq == db.nextBlockseq && t.bd == db.bd[q := data]
  {}

  lemma InlineKeeps(s: State, name: Name, hash: Hash, data: Bytes, t: State)
    requires ContentInv(s) && CanLink(Now(s), Some(s.epoch), name, hash) && Supplies(s, hash, data)
    requires t == Write(s, StoreInline(Now(s), Some(s.epoch), name, hash, data)).(supplied := s.supplied[hash := data])
    ensures ContentInv(t)
  {
    hide ContentOk, CallsOk, NumbersOk, Point, Mentions;
    Grow(Now(s), s.owner, s.supplied, t.owner, t.supplied);
    LinkOk(Now(s), FindEntry(Now(s), Some(s.epoch), name).value, name, hash, None, Some(data), t.owner, t.supplied);
    Append(s, StoreInline(Now(s), Some(s.epoch), name, hash, data), t);
  }

  lemma ShareKeeps(s: State, name: Name, f: Sighting, t: State)
    requires ContentInv(s) && f in s.calls.found && CanLink(Now(s), Some(s.epoch), name, f.hash)
    requires t == Write(s, ShareBlock(Now(s), Some(s.epoch), name, f.hash, f.dir, f.seqno)).(pending := t.pending)
    ensures ContentInv(t)
  {
    hide ContentOk, NumbersOk, ShareBlock, CanLink, FileOk;
    assert SightingOk(f, s.owner, s.supplied);
    ShareFrame(Now(s), Some(s.epoch), name, f.hash, f.dir, f.seqno);
    ShareOk(Now(s), Some(s.epoch), name, f.hash, f.dir, f.seqno, s.owner, s.supplied);
    Append(s, ShareBlock(Now(s), Some(s.epoch), name, f.hash, f.dir, f.seqno), t);
  }

  lemma ShareFrame(db: Db, e: Option<Epoch>, name: Name, hash: Hash, dir: Name, q: nat)
    requires CanLink(db, e, name, hash)
    ensures var t := ShareBlock(db, e, name, hash, dir, q); t.nextBlockseq == db.nextBlockseq && t.bd == db.bd
  {}

  lemma CopyKeeps(s: State, c: Captured)
    requires Enabled(s, Copy(c), CODE) && ContentInv(s)
    ensures ContentInv(Next(s, Copy(c)))
  {
    hide ContentOk, FileOk;
    CopyOk(Now(s), c.f, c.blocks, s.owner, s.supplied);
    Append(s, CommitCopy(Now(s), c.f, c.blocks), Next(s, Copy(c)));
  }

  lemma WriteKeeps(s: State, db: Db)
    requires ContentInv(s) && db.nextBlockseq == Now(s).nextBlockseq && ContentOk(db, s.owner, s.supplied)
    requires db.bd == Now(s).bd
    ensures ContentInv(Write(s, db))
  {
    hide ContentOk;
    Append(s, db, Write(s, db));
  }

  lemma PutKeeps(s: State, f: WireInfo)
    requires ContentInv(s)
    ensures ContentInv(Write(s, PutFile(Now(s), f)))
  {
    hide ContentOk;
    WireOk(f, s.owner, s.supplied);
    CommitOk(Now(s), f.name, FromWire(f), s.owner, s.supplied);
    WriteKeeps(s, PutFile(Now(s), f));
  }

  lemma CompleteKeeps(s: State, name: Name, expected: Option<Vector>)
    requires ContentInv(s) && CompleteFile(Now(s), s.epoch, name, expected).Promoted?
    ensures ContentInv(Write(s, CompleteFile(Now(s), s.epoch, name, expected).db))
  {
    hide ContentOk;
    PromoteOk(Now(s), s.epoch, name, s.owner, s.supplied);
    WriteKeeps(s, CompleteFile(Now(s), s.epoch, name, expected).db);
  }

  lemma StageKeeps(s: State, f: WireInfo)
    requires ContentInv(s)
    ensures ContentInv(Write(s, StageFile(Now(s), s.epoch, f)))
  {
    WireOk(f, s.owner, s.supplied);
    hide FileOk;
    WriteKeeps(s, StageFile(Now(s), s.epoch, f));
  }

  /** A read adds to what calls have seen; what it adds is as good as the database it was read from. */
  lemma CallsChange(s: State, t: State)
    requires ContentInv(s) && t == s.(calls := t.calls) && CallsOk(t.calls, t.owner, t.supplied)
    ensures ContentInv(t)
  {
    hide ContentOk, CallsOk;
  }

  lemma SpotKeeps(s: State, f: Sighting)
    requires ContentInv(s) && (f.hash, f.dir) in s.calls.referred
    requires (f.dir, f.hash) in Now(s).mb && Now(s).mb[(f.dir, f.hash)] == f.seqno
    ensures ContentInv(s.(calls := s.calls.(spotted := s.calls.spotted + {f})))
  {
    hide FileOk;
    assert ContentOk(Now(s), s.owner, s.supplied);
    assert SightingOk(f, s.owner, s.supplied);
    hide ContentOk;
    CallsChange(s, s.(calls := s.calls.(spotted := s.calls.spotted + {f})));
  }

  lemma CopyReadKeeps(s: State, f: WireInfo, from: Name)
    requires ContentInv(s)
    ensures var c := s.calls;
            ContentInv(s.(calls := c.(copies := c.copies + {Captured(f, CopyBlocks(Now(s), f, from))})))
  {
    hide ContentOk, FileOk, CopyBlocks;
    var c := s.calls;
    CapturedOk(Now(s), f, from, s.owner, s.supplied);
    CallsChange(s, s.(calls := c.(copies := c.copies + {Captured(f, CopyBlocks(Now(s), f, from))})));
  }

  lemma PeekKeeps(s: State, name: Name)
    requires ContentInv(s) && name in Now(s).mn
    ensures ContentInv(s.(calls := s.calls.(peeked := s.calls.peeked + {(name, Now(s).mn[name])})))
  {
    hide FileOk;
    assert ContentOk(Now(s), s.owner, s.supplied);
    CallsChange(s, s.(calls := s.calls.(peeked := s.calls.peeked + {(name, Now(s).mn[name])})));
  }

  lemma LateCompleteKeeps(s: State, name: Name)
    requires ContentInv(s) && (s.epoch, name) in Now(s).mi
    ensures ContentInv(Write(s, PromoteStaged(Now(s), s.epoch, name)))
  {
    hide ContentOk;
    PromoteOk(Now(s), s.epoch, name, s.owner, s.supplied);
    WriteKeeps(s, PromoteStaged(Now(s), s.epoch, name));
  }

  lemma RestoreKeeps(s: State, name: Name, f: FileInfo)
    requires ContentInv(s) && (name, f) in s.calls.peeked
    ensures ContentInv(Write(s, Now(s).(mn := Now(s).mn[name := f])))
  {
    hide FileOk;
    assert ContentOk(Now(s), s.owner, s.supplied) && FileOk((name, f).1, s.owner, s.supplied);
    WriteKeeps(s, Now(s).(mn := Now(s).mn[name := f]));
  }

  lemma ReadKeeps(s: State, a: Action)
    requires Enabled(s, a, CODE) && ContentInv(s)
    requires a.Compare? || a.Clear? || a.Refer? || a.Lookup?
    ensures ContentInv(Next(s, a))
  {
    hide FileOk, SightingOk, ContentInv, StageFile, CompleteFile, PromoteStaged, PutFile, CommitCopy, CopyBlocks,
         StoreInline, ShareBlock, NewBlock, Take, Taken, FolderModel.GcInbox, Separated, ValidName, ValidInfo,
         MetadataOnly, CanLink, Supplies, BlockSafe, Refers, SeqsIn, FileSeqs, LiveSeqs, ScanSeqs, ScanHashes,
         Visible, PendingSeqs, JudgedInTime, PeerFloor, Record, PruneAll, LoseAll, FilterOf;
    InvCalls(s);
    CallsChange(s, Next(s, a));
  }

  lemma InvCalls(s: State)
    requires ContentInv(s)
    ensures CallsOk(s.calls, s.owner, s.supplied)
  {}

  lemma OtherKeeps(s: State, t: State)
    requires ContentInv(s) && t.range == s.range && t.owner == s.owner && t.supplied == s.supplied
    requires t.calls == s.calls && t.taken == s.taken && t.doomed <= s.doomed
    requires |t.history| == |s.history| && s.flushed <= t.flushed < |t.history|
    requires forall k | 0 <= k < |s.history| ::
               && t.history[k].nextBlockseq == s.history[k].nextBlockseq && t.history[k].bd.Keys <= s.history[k].bd.Keys
               && ContentOk(t.history[k], s.owner, s.supplied)
    ensures ContentInv(t)
  {
    hide ContentOk, CallsOk;
  }

  lemma InvShaped(s: State)
    requires ContentInv(s)
    ensures Shaped(s)
  {}

  lemma JobsKeep(s: State, t: State)
    requires ContentInv(s) && t.range == s.range && t.owner == s.owner && t.supplied == s.supplied
    requires t.calls == s.calls && t.taken == s.taken && t.doomed == s.doomed
    requires t.history == s.history && s.flushed <= t.flushed < |t.history|
    ensures ContentInv(t)
  {
    hide ContentOk, NumbersOk, CallsOk;
    OtherKeeps(s, t);
  }

  lemma DropKeeps(s: State, j: nat, row: Row)
    requires Enabled(s, Drop(j, row), CODE) && ContentInv(s)
    ensures ContentInv(Next(s, Drop(j, row)))
  {
    hide ContentOk, NumbersOk, CallsOk;
    var t, f := Next(s, Drop(j, row)), FilterOf(s, j);
    forall k | 0 <= k < |s.history|
      ensures t.history[k].nextBlockseq == s.history[k].nextBlockseq && ContentOk(t.history[k], s.owner, s.supplied)
      ensures t.history[k].bd.Keys <= s.history[k].bd.Keys
    {
      PruneOk(f, s.history[k], row, s.owner, s.supplied);
      assert t.history[k] == Pruned(f, s.history[k], row);
    }
    OtherKeeps(s, t);
  }

  lemma LostOk(db: Db, q: nat, owner: Owners, supplied: Supply)
    requires ContentOk(db, owner, supplied)
    ensures ContentOk(WithoutRow(db, DataRow(q)), owner, supplied)
  {}

  lemma InstallKeeps(s: State, q: nat)
    requires Enabled(s, Install(q), CODE) && ContentInv(s)
    ensures ContentInv(Next(s, Install(q)))
  {
    hide ContentOk, NumbersOk, CallsOk;
    var t := Next(s, Install(q));
    forall k | 0 <= k < |s.history|
      ensures t.history[k].nextBlockseq == s.history[k].nextBlockseq && ContentOk(t.history[k], s.owner, s.supplied)
      ensures t.history[k].bd.Keys <= s.history[k].bd.Keys
    {
      LostOk(s.history[k], q, s.owner, s.supplied);
    }
    OtherKeeps(s, t);
  }

  lemma DecideKeeps(s: State, q: nat)
    requires ContentInv(s) && q in Now(s).bd
    ensures ContentInv(s.(doomed := s.doomed + {q}))
  {
    hide ContentOk, CallsOk, NumbersOk;
    InBounds(s, q);
    var last := |s.history| - 1;
    assert q in s.history[last].bd && q !in s.taken;
    NumbersFrame(s, s.(doomed := s.doomed + {q}));
  }

  lemma InBounds(s: State, q: nat)
    requires ContentInv(s) && q in Now(s).bd
    ensures q in s.owner
  {
    hide FileOk;
    assert ContentOk(Now(s), s.owner, s.supplied);
  }

  lemma CrashKeeps(s: State, k: nat, t: State)
    requires ContentInv(s) && s.flushed <= k < |s.history| && t.history == s.history[..k + 1] && t.flushed == k
    requires t.range == Range(NextOf(s.history[k]), NextOf(s.history[k]))
    requires t.owner == s.owner && t.supplied == s.supplied && t.calls == NOTHING && t.taken == map[] && t.doomed == {}
    ensures ContentInv(t)
  {
    assert CallsOk(NOTHING, s.owner, s.supplied);
    hide ContentOk, CallsOk;
    assert s.range.end <= NextOf(s.history[k]);
    LoadedRange(s.history[k], s);
  }

  lemma LoadedRange(h: Db, s: State)
    requires NumbersOk(s) && s.range.end <= NextOf(h)
    ensures forall q | q in s.owner :: MIN_BLOCK_SEQ <= q < NextOf(h)
  {}

  /** A step that changes no database. */
  predicate JobsOnly(a: Action) {
    a.Flush? || a.Learn? || a.Register? || a.Snapshot? || a.Scan? || a.Noise? || a.End?
  }

  lemma CollectorStep(s: State, a: Action)
    requires Enabled(s, a, CODE) && ContentInv(s) && JobsOnly(a)
    ensures ContentInv(Next(s, a))
  {
    hide ContentInv, StageFile, CompleteFile, PromoteStaged, PutFile, CommitCopy, CopyBlocks, StoreInline, ShareBlock,
         NewBlock, Take, Taken, FolderModel.GcInbox, Separated, ValidName, ValidInfo, MetadataOnly, CanLink, Supplies,
         BlockSafe, Refers, SeqsIn, FileSeqs, LiveSeqs, ScanSeqs, ScanHashes, Visible, PendingSeqs, JudgedInTime,
         PeerFloor, Record, PruneAll, LoseAll, FilterOf;
    JobsKeep(s, Next(s, a));
  }

  lemma WriterStep(s: State, a: Action)
    requires Enabled(s, a, CODE) && ContentInv(s) && Writes(a)
    ensures ContentInv(Next(s, a))
  {
    hide ContentInv, StageFile, CompleteFile, PromoteStaged, PutFile, CommitCopy, CopyBlocks, StoreInline, ShareBlock,
         NewBlock, Take, Taken, FolderModel.GcInbox, Separated, ValidName, ValidInfo, MetadataOnly, CanLink, Supplies,
         BlockSafe, Refers, SeqsIn, FileSeqs, LiveSeqs, ScanSeqs, ScanHashes, Visible, PendingSeqs, JudgedInTime,
         PeerFloor, Record, PruneAll, LoseAll, FilterOf;
    InvShaped(s);
    match a
    case Stage(f) => StageKeeps(s, f);
    case Complete(name, expected) => CompleteKeeps(s, name, expected);
    case Metadata(f) => PutKeeps(s, f);
    case Resolve(f) => PutKeeps(s, f);
    case Copy(c) => CopyKeeps(s, c);
    case Inline(name, hash, data) => InlineKeeps(s, name, hash, data, Next(s, a));
    case Fresh(name, hash, data, q) => FreshKeeps(s, name, hash, data, q);
    case Share(name, f) => ShareKeeps(s, name, f, Next(s, a));
    case Restore(name, f) => RestoreKeeps(s, name, f);
    case LateComplete(name, _, _) => LateCompleteKeeps(s, name);
    case GcInbox => OldInboxKeeps(s);
    case Peer(d, reached) => PeerKeeps(s, d, reached);
  }

  lemma OtherStep(s: State, a: Action)
    requires Enabled(s, a, CODE) && ContentInv(s) && !Writes(a)
    ensures ContentInv(Next(s, a))
  {
    hide ContentInv, StageFile, CompleteFile, PromoteStaged, PutFile, CommitCopy, CopyBlocks, StoreInline, ShareBlock,
         NewBlock, Take, Taken, FolderModel.GcInbox, Separated, ValidName, ValidInfo, MetadataOnly, CanLink, Supplies,
         BlockSafe, Refers, SeqsIn, FileSeqs, LiveSeqs, ScanSeqs, ScanHashes, Visible, PendingSeqs, JudgedInTime,
         PeerFloor, Record, PruneAll, LoseAll, FilterOf;
    InvShaped(s);
    match a
    case Number(hash) => NumberKeeps(s, hash);
    case Spot(f) => SpotKeeps(s, f);
    case CopyRead(f, from) => CopyReadKeeps(s, f, from);
    case Peek(name) => PeekKeeps(s, name);
    case Drop(j, row) => DropKeeps(s, j, row);
    case Decide(_, q) => DecideKeeps(s, q);
    case Install(q) => InstallKeeps(s, q);
    case Crash(k, _) => CrashKeeps(s, k, Next(s, a));
    case _ => if JobsOnly(a) { CollectorStep(s, a); } else { ReadKeeps(s, a); }
  }

  lemma Step(s: State, a: Action)
    requires Enabled(s, a, CODE) && ContentInv(s)
    ensures ContentInv(Next(s, a))
  {
    hide ContentInv, Enabled, Next;
    if Writes(a) { WriterStep(s, a); } else { OtherStep(s, a); }
  }

  lemma OldInboxKeeps(s: State)
    requires ContentInv(s)
    ensures ContentInv(Write(s, FolderModel.GcInbox(Now(s), s.epoch)))
  {
    hide FileOk;
    WriteKeeps(s, FolderModel.GcInbox(Now(s), s.epoch));
  }

  lemma PeerKeeps(s: State, d: Device, reached: int)
    requires ContentInv(s)
    ensures ContentInv(Write(s, Now(s).(md := Now(s).md[d := reached])))
  {
    hide FileOk;
    WriteKeeps(s, Now(s).(md := Now(s).md[d := reached]));
  }

  lemma {:induction false} RunKeeps(s: State, acts: seq<Action>, t: State, pre: Premises)
    requires Runs(s, acts, t, pre) && ContentInv(s)
    ensures ContentInv(t)
    decreases |acts|
  {
    hide ContentInv, Enabled, Next;
    if acts != [] {
      Weaken(s, acts[0], pre);
      Step(s, acts[0]);
      RunKeeps(Next(s, acts[0]), acts[1..], t, pre);
    }
  }

  // ---------------------------------------------------------------- what runs guarantee

  /** The simple view: a block is there when an entry for it has inline bytes or a data row. */
  predicate Resolvable(bd: map<nat, Bytes>, b: Block) {
    b.inlineData.Some? || (b.blockseq.Some? && b.blockseq.value in bd)
  }

  predicate Available(bd: map<nat, Bytes>, blocks: seq<Block>, hash: Hash) {
    exists i :: 0 <= i < |blocks| && blocks[i].hash == hash && Resolvable(bd, blocks[i])
  }

  lemma {:induction false} ReadFromExact(db: Db, blocks: seq<Block>, hash: Hash, owner: Owners, supplied: Supply)
    requires ContentOk(db, owner, supplied) && forall i | 0 <= i < |blocks| :: BlockOk(blocks[i], owner, supplied)
    requires forall q | q in owner :: q >= MIN_BLOCK_SEQ
    ensures Available(db.bd, blocks, hash) ==> hash in supplied && ReadFrom(db.bd, blocks, hash) == Data(supplied[hash])
    ensures !Available(db.bd, blocks, hash) ==> ReadFrom(db.bd, blocks, hash) == NotFound
    decreases |blocks|
  {
    if blocks != [] {
      var b, rest := blocks[0], blocks[1..];
      assert BlockOk(b, owner, supplied);
      ReadFromExact(db, rest, hash, owner, supplied);
      if i :| 0 <= i < |rest| && rest[i].hash == hash && Resolvable(db.bd, rest[i]) { assert blocks[i + 1] == rest[i]; }
      if i :| 0 <= i < |blocks| && blocks[i].hash == hash && Resolvable(db.bd, blocks[i]) {
        if i > 0 { assert rest[i - 1] == blocks[i]; }
      }
      assert b.blockseq.Some? && b.blockseq.value in db.bd ==> db.bd[b.blockseq.value] == supplied[b.hash];
    }
  }

  lemma InitialOk(e: Epoch)
    ensures ContentInv(Initial(e))
  {}

  /**
    After any run, `read_block` returns the data that was supplied with the hash whenever the entry
    has it, and nothing else ever, although blocks are inlined, shared, re-allocated and collected.
   */
  lemma ReadsAgree(e: Epoch, acts: seq<Action>, s: State, name: Name, hash: Hash)
    requires Runs(Initial(e), acts, s, CODE)
    ensures Shaped(s)
    ensures |hash| == HASH_LEN && name in Now(s).mn && Available(Now(s).bd, Now(s).mn[name].blocks, hash)
            ==> hash in s.supplied && ReadBlock(Now(s), name, hash) == Data(s.supplied[hash])
    ensures |hash| == HASH_LEN && !(name in Now(s).mn && Available(Now(s).bd, Now(s).mn[name].blocks, hash))
            ==> ReadBlock(Now(s), name, hash) == NotFound
  {
    InitialOk(e);
    RunKeeps(Initial(e), acts, s, CODE);
    hide Available, ReadFrom;
    var db := Now(s);
    assert ContentOk(db, s.owner, s.supplied);
    if name in db.mn {
      assert FileOk(db.mn[name], s.owner, s.supplied);
      ReadFromExact(db, db.mn[name].blocks, hash, s.owner, s.supplied);
    }
  }

  /** The numbers a run hands out, in order. */
  ghost function Handed(s: State, acts: seq<Action>, t: State): seq<nat>
    requires Runs(s, acts, t, CODE)
    decreases |acts|
  {
    if acts == [] then []
    else (if acts[0].Number? then [Taken(s)] else []) + Handed(Next(s, acts[0]), acts[1..], t)
  }

  /** Nothing handed out or supplied is forgotten or changed, not even by a crash. */
  predicate Extends(s: State, t: State) {
    && s.owner.Keys <= t.owner.Keys && (forall q | q in s.owner :: t.owner[q] == s.owner[q])
    && s.supplied.Keys <= t.supplied.Keys && (forall h | h in s.supplied :: t.supplied[h] == s.supplied[h])
  }

  lemma WroteRecords(s: State, a: Action)
    requires Shaped(s) && Writes(a) && CanWrite(s, a, CODE)
    ensures var t := Wrote(s, a);
            && t.owner == s.owner
            && t.supplied == if a.Inline? || a.Fresh? then s.supplied[a.hash := a.data] else s.supplied
    ensures a.Inline? || a.Fresh? ==> Supplies(s, a.hash, a.data)
  {
    hide StageFile, CompleteFile, PromoteStaged, PutFile, CommitCopy, StoreInline, ShareBlock, NewBlock,
         FolderModel.GcInbox, Separated, ValidName, ValidInfo, CanLink, Supplies, SeqsIn;
  }

  lemma MovedRecords(s: State, a: Action)
    requires Shaped(s) && !Writes(a) && CanMove(s, a, CODE)
    ensures var t := Moved(s, a);
            && t.owner == (if a.Number? then Take(s, a.hash).owner else s.owner)
            && t.supplied == (if a.Number? then Take(s, a.hash).supplied else s.supplied)
  {
    hide CopyBlocks, Take, Taken, MetadataOnly, BlockSafe, Refers, FileSeqs, LiveSeqs, ScanSeqs, ScanHashes, Visible,
         JudgedInTime, PeerFloor, Record, PruneAll, LoseAll, FilterOf;
  }

  lemma StepExtends(s: State, a: Action)
    requires Enabled(s, a, CODE) && ContentInv(s)
    ensures Extends(s, Next(s, a))
    ensures a.Number? ==> Taken(s) in Next(s, a).owner && Taken(s) !in s.owner && Taken(s) >= MIN_BLOCK_SEQ
  {
    hide CanWrite, CanMove, Wrote, Moved, ContentInv, Take, Taken;
    InvNumbers(s);
    if Writes(a) { WroteRecords(s, a); } else { MovedRecords(s, a); }
    if a.Number? {
      NumberIsNew(s, a.hash);
      TakeFrame(s, a.hash);
    }
  }

  /** Numbers that were handed out are large enough to be read. */
  lemma OwnedIsLarge(s: State, q: nat)
    requires ContentInv(s) && q in s.owner
    ensures q >= MIN_BLOCK_SEQ
  {}

  lemma InvNumbers(s: State)
    requires ContentInv(s)
    ensures Shaped(s) && NumbersOk(s)
  {}

  lemma {:induction false} RunExtends(s: State, acts: seq<Action>, t: State)
    requires Runs(s, acts, t, CODE) && ContentInv(s)
    ensures Extends(s, t)
    decreases |acts|
  {
    hide ContentInv, Enabled, Next;
    if acts != [] {
      Step(s, acts[0]);
      StepExtends(s, acts[0]);
      RunExtends(Next(s, acts[0]), acts[1..], t);
    }
  }

  /**
    `read_block` reads the entry first and the data rows of its blocks afterwards, one by one.  Whatever
    is written, collected and numbered in between, each row reads as the data of its hash or as missing.
   */
  lemma ReadsAcross(e: Epoch, before: seq<Action>, s: State, between: seq<Action>, t: State, name: Name, i: nat)
    requires Runs(Initial(e), before, s, CODE) && Runs(s, between, t, CODE)
    requires Shaped(s) && name in Now(s).mn && i < |Now(s).mn[name].blocks|
    ensures Shaped(t)
    ensures var b := Now(s).mn[name].blocks[i];
            if Resolvable(Now(t).bd, b)
            then b.hash in t.supplied && FolderModel.Resolve(Now(t).bd, b) == Data(t.supplied[b.hash])
            else FolderModel.Resolve(Now(t).bd, b) == NotFound
  {
    hide Runs, FileOk;
    InitialOk(e);
    RunKeeps(Initial(e), before, s, CODE);
    RunKeeps(s, between, t, CODE);
    RunExtends(s, between, t);
    assert ContentOk(Now(s), s.owner, s.supplied) && ContentOk(Now(t), t.owner, t.supplied);
    EntryResolves(Now(s).mn[name], i, s, t);
  }

  lemma EntryResolves(f: FileInfo, i: nat, s: State, t: State)
    requires FileOk(f, s.owner, s.supplied) && Extends(s, t) && i < |f.blocks|
    requires Shaped(t) && NumbersOk(t) && ContentOk(Now(t), t.owner, t.supplied)
    ensures var b := f.blocks[i];
            if Resolvable(Now(t).bd, b)
            then b.hash in t.supplied && FolderModel.Resolve(Now(t).bd, b) == Data(t.supplied[b.hash])
            else FolderModel.Resolve(Now(t).bd, b) == NotFound
  {
    assert BlockOk(f.blocks[i], s.owner, s.supplied);
  }

  /** No block number is handed out twice over a run with crashes anywhere, and none is below 1024. */
  lemma {:induction false} NumbersDistinct(s: State, acts: seq<Action>, t: State)
    requires Runs(s, acts, t, CODE) && ContentInv(s)
    ensures forall i | 0 <= i < |Handed(s, acts, t)| ::
        Handed(s, acts, t)[i] !in s.owner && Handed(s, acts, t)[i] >= MIN_BLOCK_SEQ
    ensures forall i, j | 0 <= i < j < |Handed(s, acts, t)| :: Handed(s, acts, t)[i] != Handed(s, acts, t)[j]
    decreases |acts|
  {
    hide ContentInv, Enabled, Next, Taken;
    if acts != [] {
      Weaken(s, acts[0], CODE);
      Step(s, acts[0]);
      StepExtends(s, acts[0]);
      var m := Next(s, acts[0]);
      NumbersDistinct(m, acts[1..], t);
      var rest := Handed(m, acts[1..], t);
      assert forall i | 0 <= i < |rest| :: rest[i] !in s.owner;
    }
  }

  /** Nothing malformed is ever stored, so no scan gives up and no lookup reports corruption. */
  lemma NothingMalformed(e: Epoch, acts: seq<Action>, s: State)
    requires Runs(Initial(e), acts, s, CODE)
    ensures Shaped(s)
    ensures forall n | n in Now(s).mn :: Sane(Now(s).mn[n])
    ensures forall k | k in Now(s).mi :: Sane(Now(s).mi[k])
    ensures forall k | k in Now(s).mb :: Now(s).mb[k] >= MIN_BLOCK_SEQ
  {
    InitialOk(e);
    RunKeeps(Initial(e), acts, s, CODE);
    var db := Now(s);
    assert ContentOk(db, s.owner, s.supplied);
    forall n | n in db.mn ensures Sane(db.mn[n]) { OkIsSane(db.mn[n], s); }
    forall k | k in db.mi ensures Sane(db.mi[k]) { OkIsSane(db.mi[k], s); }
  }

  lemma OkIsSane(f: FileInfo, s: State)
    requires FileOk(f, s.owner, s.supplied) && NumbersOk(s)
    ensures Sane(f)
  {
    forall b | b in f.blocks && b.blockseq.Some? ensures |b.hash| == HASH_LEN && b.blockseq.value >= MIN_BLOCK_SEQ {
      var i :| 0 <= i < |f.blocks| && f.blocks[i] == b;
      assert BlockOk(f.blocks[i], s.owner, s.supplied);
    }
  }

  /**
    A block that was stored or shared is found in its file's own directory, so the next store of its
    hash shares it.
   */
  lemma LinkedIsFound(db: Db, e: Option<Epoch>, name: Name, hash: Hash, data: Bytes, dir: Name, q: nat)
    requires CanLink(db, e, name, hash)
    ensures Holds(NewBlock(db, e, name, hash, data, q), hash, Dirname(name), q)
    ensures Holds(db, hash, dir, q) ==> Holds(ShareBlock(db, e, name, hash, dir, q), hash, Dirname(name), q)
    ensures !NobodyHolds(NewBlock(db, e, name, hash, data, q), hash)
  {
    hide Link, Dirname, Mentions;
    var made, shared := NewBlock(db, e, name, hash, data, q), ShareBlock(db, e, name, hash, dir, q);
    LinkRows(db.(bd := db.bd[q := data], mb := db.mb[(Dirname(name), hash) := q], mr := db.mr + {(hash, name)}),
             FindEntry(db, e, name).value, name, hash, q);
    var mb := if dir != Dirname(name) then db.mb[(Dirname(name), hash) := q] else db.mb;
    LinkRows(db.(mb := mb, mr := db.mr + {(hash, name)}), FindEntry(db, e, name).value, name, hash, q);
    assert (hash, name) in made.mr && (hash, name) in shared.mr;
    assert (Dirname(name), hash) in made.mb;
  }

  lemma LinkRows(db: Db, slot: Slot, name: Name, hash: Hash, q: nat)
    requires HasSlot(db, slot, name)
    ensures var t := Link(db, slot, name, hash, Some(q), None); t.mb == db.mb && t.mr == db.mr && t.bd == db.bd
  {}

  /** Every block of the entry with the hash takes the pointer, and no other block changes. */
  lemma LinkedEverywhere(db: Db, slot: Slot, name: Name, hash: Hash, q: Option<nat>, d: Option<Bytes>, i: nat)
    requires HasSlot(db, slot, name) && i < |Entry(db, slot, name).blocks|
    ensures var t, b := Link(db, slot, name, hash, q, d), Entry(db, slot, name).blocks[i];
            && HasSlot(t, slot, name) && |Entry(t, slot, name).blocks| == |Entry(db, slot, name).blocks|
            && var c := Entry(t, slot, name).blocks[i];
               && c.offset == b.offset && c.size == b.size && c.hash == b.hash
               && (b.hash == hash ==> c.blockseq == q && c.inlineData == d) && (b.hash != hash ==> c == b)
  {}

  /** The block that a carry takes its pointer from is the first of its hash that has one. */
  lemma {:induction false} FirstPointedIs(blocks: seq<Block>, hash: Hash)
    ensures FirstPointed(blocks, hash).Some? ==>
              exists i :: && 0 <= i < |blocks| && blocks[i] == FirstPointed(blocks, hash).value
                          && forall k | 0 <= k < i :: !(blocks[k].hash == hash && blocks[k].HasPointer())
  {
    if FirstPointed(blocks, hash).Some? && !(blocks[0].hash == hash && blocks[0].HasPointer()) {
      FirstPointedIs(blocks[1..], hash);
      var i :| && 0 <= i < |blocks[1..]| && blocks[1..][i] == FirstPointed(blocks[1..], hash).value
               && forall k | 0 <= k < i :: !(blocks[1..][k].hash == hash && blocks[1..][k].HasPointer());
      assert blocks[i + 1] == blocks[1..][i];
      forall k | 0 <= k < i + 1 ensures !(blocks[k].hash == hash && blocks[k].HasPointer()) {
        if k > 0 { assert blocks[k] == blocks[1..][k - 1]; }
      }
    }
  }
}
