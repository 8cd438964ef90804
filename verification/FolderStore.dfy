/**
  The store of one folder as an object: its rows, the reserved block numbers and the active
  compaction jobs, changed in place.  Every method is tied to the specification functions that the
  runs are made of.
 */
module FolderStore {
  import opened Prelude
  import opened Files
  import opened VersionVectors
  import opened StoreKeys
  import opened FolderModel
  import opened FolderRuns

  datatype Lookup = Found(dir: Name, seqno: nat) | Absent | CorruptPointer

  datatype Outcome = Stored | Reused | Unknown | Missing | Malformed | CorruptStore

  datatype Update = NeedBlocks | Applied(seqno: nat) | NoAction | Conflict | Rejected | BadVersion

  // ---------------------------------------------------------------- loops over blocks

  lemma {:induction false} FirstPointedSnoc(blocks: seq<Block>, b: Block, hash: Hash)
    ensures FirstPointed(blocks + [b], hash) ==
            if FirstPointed(blocks, hash).Some? then FirstPointed(blocks, hash)
            else if b.hash == hash && b.HasPointer() then Some(b) else None
    decreases |blocks|
  {
    if blocks == [] {
      assert [b][1..] == [];
    } else {
      assert (blocks + [b])[1..] == blocks[1..] + [b];
      FirstPointedSnoc(blocks[1..], b, hash);
    }
  }

  /** Pointers by hash, first one wins. */
  method PointersByHash(prior: seq<Block>) returns (byHash: map<Hash, Block>)
    ensures forall h :: (h in byHash <==> FirstPointed(prior, h).Some?)
    ensures forall h | h in byHash :: FirstPointed(prior, h) == Some(byHash[h])
  {
    byHash := map[];
    for i := 0 to |prior|
      invariant forall h :: (h in byHash <==> FirstPointed(prior[..i], h).Some?)
      invariant forall h | h in byHash :: FirstPointed(prior[..i], h) == Some(byHash[h])
    {
      assert prior[..i + 1] == prior[..i] + [prior[i]];
      forall h { FirstPointedSnoc(prior[..i], prior[i], h); }
      if prior[i].HasPointer() && prior[i].hash !in byHash { byHash := byHash[prior[i].hash := prior[i]]; }
    }
    assert prior[..|prior|] == prior;
  }

  method CarryBlockPointers(blocks: seq<Block>, prior: seq<Block>) returns (r: seq<Block>)
    ensures r == Carry(blocks, prior)
  {
    var byHash := PointersByHash(prior);
    r := blocks;
    for i := 0 to |blocks|
      invariant |r| == |blocks| && r[i..] == blocks[i..]
      invariant forall k | 0 <= k < i :: r[k] == CarryOne(blocks[k], prior)
    {
      assert r[i] == blocks[i];
      if !r[i].HasPointer() && r[i].hash in byHash {
        var src := byHash[r[i].hash];
        r := r[i := r[i].(blockseq := src.blockseq, inlineData := src.inlineData)];
      }
    }
  }

  /** Points every block of the hash; `updated` tells whether there was one. */
  method PointBlocks(blocks: seq<Block>, hash: Hash, blockseq: Option<nat>, inlineData: Option<Bytes>)
    returns (r: seq<Block>, updated: bool)
    ensures r == Point(blocks, hash, blockseq, inlineData) && (updated <==> Mentions(blocks, hash))
  {
    r, updated := blocks, false;
    for i := 0 to |blocks|
      invariant |r| == |blocks| && r[i..] == blocks[i..] && r[..i] == Point(blocks, hash, blockseq, inlineData)[..i]
      invariant updated <==> exists k :: 0 <= k < i && blocks[k].hash == hash
    {
      assert r[i] == blocks[i];
      if r[i].hash == hash {
        r := r[i := r[i].(blockseq := blockseq, inlineData := inlineData)];
        updated := true;
      }
    }
  }

  lemma {:induction false} ReadFromSnoc(bd: map<nat, Bytes>, blocks: seq<Block>, rest: seq<Block>, hash: Hash)
    requires ReadFrom(bd, blocks, hash).NotFound?
    ensures ReadFrom(bd, blocks + rest, hash) == ReadFrom(bd, rest, hash)
    decreases |blocks|
  {
    if blocks == [] {
      assert blocks + rest == rest;
    } else {
      assert (blocks + rest)[1..] == blocks[1..] + rest;
      ReadFromSnoc(bd, blocks[1..], rest, hash);
    }
  }

  /** Setting a pointer and writing the other rows of the batch commute. */
  lemma LinkFrame(db: Db, bd: map<nat, Bytes>, mb: map<(Name, Hash), nat>, mr: set<(Hash, Name)>, slot: Slot,
                  name: Name, hash: Hash, q: Option<nat>)
    requires HasSlot(db, slot, name)
    ensures Link(db.(bd := bd, mb := mb, mr := mr), slot, name, hash, q, None)
            == Link(db, slot, name, hash, q, None).(bd := bd, mb := mb, mr := mr)
  {
    hide Point;
  }

  lemma CanLinkFrame(db: Db, t: Db, epoch: Option<Epoch>, name: Name, hash: Hash)
    requires t.mn == db.mn && t.mi == db.mi
    ensures CanLink(t, epoch, name, hash) <==> CanLink(db, epoch, name, hash)
  {}

  lemma NewBlockIs(db: Db, epoch: Option<Epoch>, name: Name, hash: Hash, data: Bytes, q: nat)
    requires CanLink(db, epoch, name, hash)
    ensures NewBlock(db, epoch, name, hash, data, q) ==
            Link(db, FindEntry(db, epoch, name).value, name, hash, Some(q), None)
              .(bd := db.bd[q := data], mb := db.mb[(Dirname(name), hash) := q], mr := db.mr + {(hash, name)})
  {
    hide Link;
    LinkFrame(db, db.bd[q := data], db.mb[(Dirname(name), hash) := q], db.mr + {(hash, name)},
              FindEntry(db, epoch, name).value, name, hash, Some(q));
  }

  lemma CommitIs(db: Db, name: Name, stored: FileInfo, rows: map<nat, Name>)
    requires rows == if name in db.mn && db.mn[name].sequence > 0 then db.ms - {db.mn[name].sequence} else db.ms
    ensures Commit(db, name, stored) ==
            db.(mn := db.mn[name := Carried(db, name, stored).(sequence := db.maxSequence + 1)],
                ms := rows[db.maxSequence + 1 := name], maxSequence := db.maxSequence + 1)
  {
    hide Carried;
    assert Commit(db, name, stored).ms == rows[db.maxSequence + 1 := name];
  }

  lemma RecordNone(jobs: map<nat, Job>)
    ensures Record(jobs, {}) == jobs
  {
    var none: set<(Hash, nat)> := {};
    var r := Record(jobs, none);
    assert (set p | p in none :: p.0) == {} && (set p | p in none :: p.1) == {};
    forall j | j in jobs ensures r[j] == jobs[j] { assert r[j].hashes == jobs[j].hashes && r[j].seqs == jobs[j].seqs; }
  }

  class Store {
    var mn: map<Name, FileInfo>
    var ms: map<nat, Name>
    var mi: map<(Epoch, Name), FileInfo>
    var mb: map<(Name, Hash), nat>
    var mr: set<(Hash, Name)>
    var bd: map<nat, Bytes>
    var md: map<Device, int>
    var maxSequence: nat
    var nextBlockseq: Option<nat>
    var range: Range
    var jobs: map<nat, Job>
    var nextJob: nat

    function View(): Db
      reads this
    {
      Db(mn, ms, mi, mb, mr, bd, md, maxSequence, nextBlockseq)
    }

    /** Opens a folder on what a previous process left. */
    constructor (db: Db)
      ensures View() == db && jobs == map[] && nextJob == 1
      ensures range.next == range.end == (if db.nextBlockseq.Some? then db.nextBlockseq.value else 0)
    {
      mn, ms, mi, mb, mr, bd, md := db.mn, db.ms, db.mi, db.mb, db.mr, db.bd, db.md;
      maxSequence, nextBlockseq := db.maxSequence, db.nextBlockseq;
      var n := if db.nextBlockseq.Some? then db.nextBlockseq.value else 0;
      range, jobs, nextJob := Range(n, n), map[], 1;
    }

    // -------------------------------------------------------------- commits

    /** One batch; what the caller put into it goes with it. */
    method CommitWithNewSeq(name: Name, stored: FileInfo, goneInbox: set<(Epoch, Name)>, refs: set<(Hash, Name)>)
      returns (seqno: nat)
      modifies this`mn, this`ms, this`maxSequence, this`mi, this`mr
      ensures View() == Commit(old(View()).(mi := old(mi) - goneInbox, mr := old(mr) + refs), name, stored)
      ensures seqno == maxSequence == old(maxSequence) + 1 && name in mn && mn[name].sequence == seqno
    {
      hide Carry, Commit;
      var entry, rows := stored, ms;
      if name in mn {
        var prior := mn[name];
        var carried := CarryBlockPointers(stored.blocks, prior.blocks);
        entry := stored.(blocks := carried);
        if prior.sequence > 0 { rows := rows - {prior.sequence}; }
      }
      seqno := maxSequence + 1;
      CommitIs(View().(mi := mi - goneInbox, mr := mr + refs), name, stored, rows);
      mn, ms, maxSequence := mn[name := entry.(sequence := seqno)], rows[seqno := name], seqno;
      mi, mr := mi - goneInbox, mr + refs;
    }

    method PutFile(f: WireInfo) returns (seqno: nat)
      modifies this`mn, this`ms, this`maxSequence, this`mi, this`mr
      ensures View() == FolderModel.PutFile(old(View()), f) && seqno == maxSequence
    {
      seqno := CommitWithNewSeq(f.name, FromWire(f), {}, {});
    }

    method PutFileWithCarry(f: WireInfo, from: Name) returns (seqno: nat)
      modifies this`mn, this`ms, this`maxSequence, this`mi, this`mr, this`jobs
      ensures View() == FolderModel.PutFileWithCarry(old(View()), f, from) && seqno == maxSequence
      ensures jobs == Record(old(jobs), Separated(CopyBlocks(old(View()), f, from)))
    {
      hide Carry, Commit, Record;
      var stored := FromWire(f);
      var carried: set<(Hash, nat)> := {};
      if from in mn {
        var blocks := CarryBlockPointers(stored.blocks, mn[from].blocks);
        carried := SeparatedBlocks(blocks);
        stored := stored.(blocks := blocks);
      } else {
        NoneSeparated(f);
      }
      var refs := set p | p in carried :: (p.0, f.name);
      assert stored.blocks == CopyBlocks(View(), f, from) && carried == Separated(stored.blocks);
      assert old(mi) - {} == old(mi);
      seqno := CommitWithNewSeq(f.name, stored, {}, refs);
      RecordAll(carried);
    }

    method StageFile(epoch: Epoch, f: WireInfo)
      modifies this`mi
      ensures View() == FolderModel.StageFile(old(View()), epoch, f)
    {
      mi := mi[(epoch, f.name) := FromWire(f)];
    }

    /** The promoted entry; none when the file is not staged in this version, an error when blocks are missing. */
    method CompleteFile(epoch: Epoch, name: Name, expected: Option<Vector>) returns (r: Option<Option<FileInfo>>)
      modifies this`mn, this`ms, this`maxSequence, this`mi, this`mr
      ensures match FolderModel.CompleteFile(old(View()), epoch, name, expected)
              case Promoted(db) => View() == db && r == Some(Some(mn[name]))
              case Incomplete => View() == old(View()) && r == None
              case _ => View() == old(View()) && r == Some(None)
    {
      if (epoch, name) !in mi { return Some(None); }
      var staged := mi[(epoch, name)];
      if staged.version != expected { return Some(None); }
      var completed := staged.blocks;
      if name in mn { completed := CarryBlockPointers(completed, mn[name].blocks); }
      if exists b :: b in completed && !b.HasPointer() { return None; }
      assert Files.Complete(completed) by {
        forall i | 0 <= i < |completed| ensures completed[i].HasPointer() { assert completed[i] in completed; }
      }
      assert old(View()).(mi := old(mi) - {(epoch, name)}, mr := old(mr) + {}) ==
          old(View()).(mi := old(mi) - {(epoch, name)});
      var _ := CommitWithNewSeq(name, staged, {(epoch, name)}, {});
      r := Some(Some(mn[name]));
    }

    // -------------------------------------------------------------- the jobs' filters

    method RecordBlockWrite(hash: Hash, seqno: nat)
      modifies this`jobs
      ensures jobs == Record(old(jobs), {(hash, seqno)})
    {
      var left, r := jobs.Keys, jobs;
      while left != {}
        invariant left <= jobs.Keys && r.Keys == jobs.Keys
        invariant forall j | j in jobs :: r[j] == if j in left then jobs[j] else Record(jobs, {(hash, seqno)})[j]
        decreases left
      {
        var j :| j in left;
        assert (set p | p in {(hash, seqno)} :: p.0) == {hash} && (set p | p in {(hash, seqno)} :: p.1) == {seqno};
        r := r[j := r[j].(hashes := r[j].hashes + {hash}, seqs := r[j].seqs + {seqno})];
        left := left - {j};
      }
      jobs := r;
      assert jobs == Record(old(jobs), {(hash, seqno)});
    }

    method RecordAll(pairs: set<(Hash, nat)>)
      modifies this`jobs
      ensures jobs == Record(old(jobs), pairs)
    {
      var left := pairs;
      RecordNone(jobs);
      assert pairs - left == {};
      while left != {}
        invariant left <= pairs && jobs == Record(old(jobs), pairs - left)
        decreases left
      {
        var p :| p in left;
        RecordMore(old(jobs), pairs - left, p);
        assert pairs - (left - {p}) == pairs - left + {p};
        RecordBlockWrite(p.0, p.1);
        left := left - {p};
      }
      assert pairs - left == pairs;
    }

    method IsBlockSafe(hash: Hash) returns (safe: bool)
      ensures safe <==> BlockSafe(jobs, hash)
    {
      var left := jobs.Keys;
      while left != {}
        invariant left <= jobs.Keys && forall j | j in jobs && j !in left :: hash in jobs[j].hashes
        decreases left
      {
        var j :| j in left;
        if hash !in jobs[j].hashes { return false; }
        left := left - {j};
      }
      safe := true;
    }

    method Register() returns (id: nat)
      modifies this`jobs, this`nextJob
      ensures id == old(nextJob) && nextJob == id + 1 && jobs == old(jobs)[id := Job({}, {}, Registered)]
    {
      id, nextJob := nextJob, nextJob + 1;
      jobs := jobs[id := Job({}, {}, Registered)];
    }

    method Unregister(id: nat)
      modifies this`jobs
      ensures jobs == old(jobs) - {id}
    {
      jobs := jobs - {id};
    }

    // -------------------------------------------------------------- blocks

    method Allocate() returns (seqno: nat)
      modifies this`range, this`nextBlockseq
      ensures FolderModel.Allocate(old(range), old(nextBlockseq)) ==
              Allocation(seqno, range, nextBlockseq, old(range.next >= range.end))
    {
      if range.next < range.end {
        seqno, range := range.next, range.(next := range.next + 1);
      } else {
        var base := if nextBlockseq.Some? then nextBlockseq.value else 0;
        if base < MIN_BLOCK_SEQ { base := MIN_BLOCK_SEQ; }
        nextBlockseq := Some(base + RESERVATION_N);
        range := Range(base + 1, base + RESERVATION_N);
        seqno := base;
      }
    }

    /** A directory that holds the data of a hash no job is about to drop. */
    method FindBlockDir(hash: Hash) returns (r: Lookup)
      ensures r.Found? ==> BlockSafe(jobs, hash) && Holds(View(), hash, r.dir, r.seqno) && r.seqno >= MIN_BLOCK_SEQ
      ensures r.Absent? ==> !BlockSafe(jobs, hash) || NobodyHolds(View(), hash)
      ensures r.CorruptPointer? ==> exists k :: k in mb && k.1 == hash && mb[k] < MIN_BLOCK_SEQ
    {
      var safe := IsBlockSafe(hash);
      if !safe { return Absent; }
      var all := set p | p in mr && p.0 == hash;
      var left := all;
      while left != {}
        invariant left <= all
        invariant forall p | p in all - left :: (Dirname(p.1), hash) in mb ==> mb[(Dirname(p.1), hash)] !in bd
        decreases left
      {
        var p :| p in left;
        left := left - {p};
        var k := (Dirname(p.1), hash);
        if k in mb {
          if mb[k] < MIN_BLOCK_SEQ { return CorruptPointer; }
          if mb[k] in bd { return Found(k.0, mb[k]); }
        }
      }
      r := Absent;
    }

    /** The entry of `name` takes the pointer, if there is one that mentions the hash. */
    method UpdateEntry(epoch: Option<Epoch>, name: Name, hash: Hash, blockseq: Option<nat>, inlineData: Option<Bytes>)
      returns (ok: bool)
      modifies this`mn, this`mi
      ensures ok <==> CanLink(old(View()), epoch, name, hash)
      ensures var db := old(View());
              ok ==> View() == Link(db, FindEntry(db, epoch, name).value, name, hash, blockseq, inlineData)
      ensures !ok ==> View() == old(View())
    {
      if epoch.Some? && (epoch.value, name) in mi {
        var f := mi[(epoch.value, name)];
        var blocks, updated := PointBlocks(f.blocks, hash, blockseq, inlineData);
        if updated { mi := mi[(epoch.value, name) := f.(blocks := blocks)]; }
        ok := updated;
      } else if name in mn {
        var f := mn[name];
        var blocks, updated := PointBlocks(f.blocks, hash, blockseq, inlineData);
        if updated { mn := mn[name := f.(blocks := blocks)]; }
        ok := updated;
      } else {
        ok := false;
      }
    }

    /** The entry takes a block that directory `dir` holds. */
    method LinkShared(epoch: Option<Epoch>, name: Name, hash: Hash, dir: Name, seqno: nat) returns (ok: bool)
      modifies this`mn, this`mi, this`mb, this`mr, this`jobs
      ensures ok <==> CanLink(old(View()), epoch, name, hash)
      ensures ok ==> View() == ShareBlock(old(View()), epoch, name, hash, dir, seqno)
      ensures ok ==> jobs == Record(old(jobs), {(hash, seqno)})
      ensures !ok ==> View() == old(View()) && jobs == old(jobs)
    {
      hide Link, Record;
      ok := UpdateEntry(epoch, name, hash, Some(seqno), None);
      if ok {
        var mb' := if dir != Dirname(name) then mb[(Dirname(name), hash) := seqno] else mb;
        LinkFrame(old(View()), bd, mb', mr + {(hash, name)}, FindEntry(old(View()), epoch, name).value, name, hash,
                  Some(seqno));
        if dir != Dirname(name) { mb := mb[(Dirname(name), hash) := seqno]; }
        mr := mr + {(hash, name)};
        RecordBlockWrite(hash, seqno);
      }
    }

    /** The entry takes a block written under a new number; the number is spent even when there is no entry. */
    method LinkNew(epoch: Option<Epoch>, name: Name, hash: Hash, data: Bytes) returns (ok: bool)
      modifies this`mn, this`mi, this`mb, this`mr, this`jobs, this`bd, this`range, this`nextBlockseq
      ensures var a := FolderModel.Allocate(old(range), old(nextBlockseq));
              var db := old(View()).(nextBlockseq := a.nextBlockseq);
              && range == a.range && (ok <==> CanLink(old(View()), epoch, name, hash))
              && (ok ==> CanLink(db, epoch, name, hash) && View() == NewBlock(db, epoch, name, hash, data, a.seqno)
                         && jobs == Record(old(jobs), {(hash, a.seqno)}))
              && (!ok ==> View() == db && jobs == old(jobs))
    {
      hide Link, Record, FolderModel.Allocate, NewBlock, CanLink;
      var seqno := Allocate();
      ghost var db := View();
      CanLinkFrame(old(View()), db, epoch, name, hash);
      ok := UpdateEntry(epoch, name, hash, Some(seqno), None);
      if ok {
        NewBlockIs(db, epoch, name, hash, data, seqno);
        bd := bd[seqno := data];
        mb := mb[(Dirname(name), hash) := seqno];
        mr := mr + {(hash, name)};
        RecordBlockWrite(hash, seqno);
      }
    }

    method StoreBlock(epoch: Option<Epoch>, name: Name, hash: Hash, data: Bytes)
      returns (r: Outcome, ghost found: Lookup)
      modifies this`mn, this`mi, this`mb, this`mr, this`jobs, this`bd, this`range, this`nextBlockseq
      ensures |hash| != HASH_LEN ==> r == Malformed && Untouched(old(View()), old(range), old(jobs))
      ensures |hash| == HASH_LEN && |data| < INLINE_BLOCK_THRESHOLD ==>
                if CanLink(old(View()), epoch, name, hash)
                then r == Stored && Untouched(StoreInline(old(View()), epoch, name, hash, data), old(range), old(jobs))
                else r == Missing && Untouched(old(View()), old(range), old(jobs))
      ensures |hash| == HASH_LEN && |data| >= INLINE_BLOCK_THRESHOLD ==>
                match found
                case Found(dir, q) =>
                  && BlockSafe(old(jobs), hash) && Holds(old(View()), hash, dir, q) && q >= MIN_BLOCK_SEQ
                  && if CanLink(old(View()), epoch, name, hash)
                     then r == Stored && Untouched(ShareBlock(old(View()), epoch, name, hash, dir, q), old(range),
                                                   Record(old(jobs), {(hash, q)}))
                     else r == Missing && Untouched(old(View()), old(range), old(jobs))
                case Absent =>
                  && (!BlockSafe(old(jobs), hash) || NobodyHolds(old(View()), hash))
                  && var a := FolderModel.Allocate(old(range), old(nextBlockseq));
                     var db := old(View()).(nextBlockseq := a.nextBlockseq);
                     if CanLink(db, epoch, name, hash)
                     then r == Stored && Untouched(NewBlock(db, epoch, name, hash, data, a.seqno), a.range,
                                                   Record(old(jobs), {(hash, a.seqno)}))
                     else r == Missing && Untouched(db, a.range, old(jobs))
                case CorruptPointer => r == CorruptStore && Untouched(old(View()), old(range), old(jobs))
    {
      found := Absent;
      if |hash| != HASH_LEN { return Malformed, found; }
      if |data| < INLINE_BLOCK_THRESHOLD {
        var ok := UpdateEntry(epoch, name, hash, None, Some(data));
        return if ok then Stored else Missing, found;
      }
      var existing := FindBlockDir(hash);
      found := existing;
      match existing
      case CorruptPointer => r := CorruptStore;
      case Found(dir, q) =>
        var ok := LinkShared(epoch, name, hash, dir, q);
        r := if ok then Stored else Missing;
      case Absent =>
        var ok := LinkNew(epoch, name, hash, data);
        r := if ok then Stored else Missing;
    }

    ghost predicate Untouched(db: Db, was: Range, filters: map<nat, Job>)
      reads this
    {
      View() == db && range == was && jobs == filters
    }

    method ReuseBlock(epoch: Option<Epoch>, name: Name, hash: Hash) returns (r: Outcome, ghost found: Lookup)
      modifies this`mn, this`mi, this`mb, this`mr, this`jobs
      ensures |hash| != HASH_LEN ==> r == Malformed && Untouched(old(View()), old(range), old(jobs))
      ensures |hash| == HASH_LEN ==>
                match found
                case Found(dir, q) =>
                  && BlockSafe(old(jobs), hash) && Holds(old(View()), hash, dir, q) && q >= MIN_BLOCK_SEQ
                  && if CanLink(old(View()), epoch, name, hash)
                     then r == Reused && Untouched(ShareBlock(old(View()), epoch, name, hash, dir, q), old(range),
                                                   Record(old(jobs), {(hash, q)}))
                     else r == Missing && Untouched(old(View()), old(range), old(jobs))
                case Absent =>
                  && (!BlockSafe(old(jobs), hash) || NobodyHolds(old(View()), hash))
                  && r == Unknown && Untouched(old(View()), old(range), old(jobs))
                case CorruptPointer => r == CorruptStore && Untouched(old(View()), old(range), old(jobs))
    {
      found := Absent;
      if |hash| != HASH_LEN { return Malformed, found; }
      var existing := FindBlockDir(hash);
      found := existing;
      match existing
      case CorruptPointer => r := CorruptStore;
      case Absent => r := Unknown;
      case Found(dir, q) =>
        var ok := LinkShared(epoch, name, hash, dir, q);
        r := if ok then Reused else Missing;
    }

    method ReadBlock(name: Name, hash: Hash) returns (r: ReadResult)
      ensures r == FolderModel.ReadBlock(View(), name, hash)
    {
      if |hash| != HASH_LEN { return BadHash; }
      if name in mn {
        var blocks := mn[name].blocks;
        for i := 0 to |blocks|
          invariant ReadFrom(bd, blocks[..i], hash).NotFound?
        {
          ReadFromSnoc(bd, blocks[..i], blocks[i..], hash);
          assert blocks[..i] + blocks[i..] == blocks;
          if blocks[i].hash == hash {
            var d := FolderModel.Resolve(bd, blocks[i]);
            if !d.NotFound? { return d; }
          }
          ReadFromSnoc(bd, blocks[..i], [blocks[i]], hash);
          assert blocks[..i + 1] == blocks[..i] + [blocks[i]];
        }
        assert blocks[..|blocks|] == blocks;
      }
      r := NotFound;
    }

    // -------------------------------------------------------------- scans

    /** An error for a sequence whose successor is negative or does not fit in 63 bits. */
    method FilesSince(since: int) returns (r: Option<seq<(Name, FileInfo)>>)
      ensures r == if -1 <= since < I64_MAX then Some(FolderModel.FilesSince(View(), since)) else None
    {
      if since < -1 || since >= I64_MAX { return None; }
      var left := set q | q in ms && q > since;
      var files := [];
      assert left == SeqsAbove(View(), since);
      while left != {}
        invariant left <= ms.Keys && files + FilesAt(View(), left) == FolderModel.FilesSince(View(), since)
        decreases left
      {
        var q := Least(left);
        if ms[q] in mn { files := files + [(ms[q], mn[ms[q]])]; }
        left := left - {q};
      }
      assert files + FilesAt(View(), {}) == files;
      r := Some(files);
    }

    method GcInbox(current: Epoch) returns (count: nat)
      modifies this`mi
      ensures View() == FolderModel.GcInbox(old(View()), current)
      ensures count == |set k | k in old(mi) && k.0 < current|
    {
      var left, gone: set<(Epoch, Name)> := mi.Keys, {};
      count := 0;
      while left != {}
        invariant left <= mi.Keys && count == |gone| && gone == set k | k in mi && k !in left && k.0 < current
        decreases left
      {
        var k: (Epoch, Name) :| k in left;
        if k.0 < current { gone, count := gone + {k}, count + 1; }
        left := left - {k};
      }
      assert gone == set k | k in mi && k.0 < current;
      assert mi - gone == FolderModel.GcInbox(View(), current).mi;
      mi := mi - gone;
    }

    method ComputePeerFloor() returns (floor: Option<int>)
      ensures floor == PeerFloor(md)
    {
      var left, low: Option<int> := md.Keys, None;
      while left != {}
        invariant left <= md.Keys && (low.None? <==> left == md.Keys)
        invariant low.Some? ==> exists k :: k in md && md[k] == low.value
        invariant low.Some? ==> forall k | k in md && k !in left :: low.value <= md[k]
        decreases left
      {
        var k := Least(left);
        low := Some(if low.Some? && low.value <= md[k] then low.value else md[k]);
        left := left - {k};
      }
      if low.None? || low.value == 0 { return None; }
      floor := low;
    }

    /**
      Fills a registered job's filters from a snapshot; a malformed pointer aborts the job.
      The snapshot is taken after `Register`.
     */
    method BuildFilters(id: nat, snapshot: Db, epoch: Epoch) returns (ok: bool)
      requires id in jobs
      modifies this`jobs
      ensures ok <==> (forall n | n in snapshot.mn :: Sane(snapshot.mn[n]))
                      && forall k | k in snapshot.mi && k.0 == epoch && InboxCovers(epoch, k.1) :: Sane(snapshot.mi[k])
      ensures ok ==> jobs == old(jobs)[id :=
                                       old(jobs[id]).(hashes := old(jobs[id]).hashes + ScanHashes(snapshot, epoch),
                                                            seqs := old(jobs[id]).seqs + ScanSeqs(snapshot, epoch))]
      ensures !ok ==> jobs == old(jobs) - {id}
    {
      hide InboxCovers;
      var inbox := set k | k in snapshot.mi && k.0 == epoch && InboxCovers(epoch, k.1) :: snapshot.mi[k];
      var files := set n | n in snapshot.mn :: snapshot.mn[n];
      var ok1, h1, q1 := IndexBlocks(inbox);
      if !ok1 {
        jobs := jobs - {id};
        return false;
      }
      var ok2, h2, q2 := IndexBlocks(files);
      if !ok2 {
        jobs := jobs - {id};
        return false;
      }
      Gathered(snapshot, epoch, inbox, files);
      var job := jobs[id];
      assert job.hashes + h1 + h2 == job.hashes + ScanHashes(snapshot, epoch);
      assert job.seqs + q1 + q2 == job.seqs + ScanSeqs(snapshot, epoch);
      jobs := jobs[id := job.(hashes := job.hashes + h1 + h2, seqs := job.seqs + q1 + q2)];
      ok := true;
    }

    /** The filter's decision on one row. */
    method Judge(id: nat, epoch: Epoch, floor: Option<int>, row: Row) returns (prune: bool)
      ensures id in jobs ==> (prune <==> Prunes(Filter(jobs[id].hashes, jobs[id].seqs, epoch, floor), View(), row))
      ensures id !in jobs && (row.DataRow? || row.PointerRow? || row.ReverseRow?) ==> !prune
    {
      match row
      case DataRow(q) => prune := id in jobs && q !in jobs[id].seqs;
      case PointerRow(_, h) => prune := id in jobs && h !in jobs[id].hashes;
      case ReverseRow(h, _) => prune := id in jobs && h !in jobs[id].hashes;
      case InboxRow(e, _) => prune := e < epoch;
      case SeqRow(q) => prune := floor.Some? && floor.value >= 0 && q < floor.value;
      case FileRow(n) => prune := floor.Some? && n in mn && mn[n].deleted && mn[n].sequence < floor.value;
    }

    // -------------------------------------------------------------- updates from peers

    /** Newer metadata is committed at once, newer contents are staged, older news are ignored. */
    method ApplyUpdate(epoch: Epoch, f: WireInfo) returns (r: Update)
      modifies this`mn, this`ms, this`maxSequence, this`mi, this`mr
      ensures !ValidName(f.name) || !ValidInfo(f) ==> r == Rejected
      ensures ValidName(f.name) && ValidInfo(f) ==>
                if f.name !in old(mn) || old(mn)[f.name].version.None? || f.version.None? then r == NeedBlocks
                else match CompareSpec(old(mn)[f.name].version.value, f.version.value)
                     case None => r == BadVersion
                     case Some(Less) =>
                       if SameBlocks(old(mn)[f.name].blocks, f.blocks) then r == Applied(maxSequence)
                       else r == NeedBlocks
                     case Some(Concurrent) => r == Conflict
                     case Some(_) => r == NoAction
      ensures View() == if r.NeedBlocks? then FolderModel.StageFile(old(View()), epoch, f)
                        else if r.Applied? then FolderModel.PutFile(old(View()), f) else old(View())
    {
      var okName := ValidateFileName(f.name);
      var okInfo := ValidateFileInfo(f);
      if !okName || !okInfo { return Rejected; }
      if f.name !in mn || mn[f.name].version.None? || f.version.None? {
        StageFile(epoch, f);
        return NeedBlocks;
      }
      var order := VersionVectors.Compare(mn[f.name].version.value, f.version.value);
      if order.None? { return BadVersion; }
      match order.value
      case Greater => r := NoAction;
      case Equal => r := NoAction;
      case Concurrent => r := Conflict;
      case Less =>
        if SameBlocks(mn[f.name].blocks, f.blocks) {
          var q := PutFile(f);
          r := Applied(q);
        } else {
          StageFile(epoch, f);
          r := NeedBlocks;
        }
    }

    /** The loser's copy is committed first, while the entry it takes its pointers from still stands. */
    method ResolveConflict(winner: WireInfo, loser: WireInfo, loserPath: Option<Name>)
      modifies this`mn, this`ms, this`maxSequence, this`mi, this`mr, this`jobs
      ensures var copy := loser.(name := if loserPath.Some? then loserPath.value else loser.name);
              && (loserPath.Some? ==>
                  && View() == FolderModel.PutFile(FolderModel.PutFileWithCarry(old(View()), copy, loser.name), winner)
                  && jobs == Record(old(jobs), Separated(CopyBlocks(old(View()), copy, loser.name))))
              && (loserPath.None? ==> View() == FolderModel.PutFile(old(View()), winner) && jobs == old(jobs))
    {
      if loserPath.Some? {
        var _ := PutFileWithCarry(loser.(name := loserPath.value), loser.name);
      }
      var _ := PutFile(winner);
    }
  }

  method IndexBlocks(files: set<FileInfo>) returns (ok: bool, hashes: set<Hash>, seqs: set<nat>)
    ensures ok <==> forall f | f in files :: Sane(f)
    ensures ok ==> hashes == (set f, h | f in files && h in HashesOf(f) :: h)
    ensures ok ==> seqs == (set f, q | f in files && q in SeqsOf(f) :: q)
  {
    hashes, seqs := {}, {};
    var left := files;
    while left != {}
      invariant left <= files && forall f | f in files - left :: Sane(f)
      invariant hashes == (set f, h | f in files - left && h in HashesOf(f) :: h)
      invariant seqs == (set f, q | f in files - left && q in SeqsOf(f) :: q)
      decreases left
    {
      var f :| f in left;
      var fine, hs, qs := IndexFile(f);
      if !fine { return false, {}, {}; }
      hashes, seqs := hashes + hs, seqs + qs;
      left := left - {f};
    }
    ok := true;
  }

  method IndexFile(f: FileInfo) returns (ok: bool, hashes: set<Hash>, seqs: set<nat>)
    ensures ok <==> Sane(f)
    ensures ok ==> hashes == HashesOf(f) && seqs == SeqsOf(f)
  {
    hashes, seqs := {}, {};
    for i := 0 to |f.blocks|
      invariant forall b | b in f.blocks[..i] && b.blockseq.Some? ::
          |b.hash| == HASH_LEN && b.blockseq.value >= MIN_BLOCK_SEQ
      invariant hashes == HashesOf(f.(blocks := f.blocks[..i])) && seqs == SeqsOf(f.(blocks := f.blocks[..i]))
    {
      var b := f.blocks[i];
      assert f.blocks[..i + 1] == f.blocks[..i] + [b];
      if b.blockseq.Some? {
        if |b.hash| != HASH_LEN || b.blockseq.value < MIN_BLOCK_SEQ {
          assert b in f.blocks;
          return false, {}, {};
        }
        hashes, seqs := hashes + {b.hash}, seqs + {b.blockseq.value};
      }
    }
    assert f.blocks[..|f.blocks|] == f.blocks;
    ok := true;
  }

  lemma Gathered(db: Db, epoch: Epoch, inbox: set<FileInfo>, files: set<FileInfo>)
    requires inbox == (set k | k in db.mi && k.0 == epoch && InboxCovers(epoch, k.1) :: db.mi[k])
    requires files == (set n | n in db.mn :: db.mn[n])
    ensures ScanHashes(db, epoch) ==
        (set f, h | f in inbox && h in HashesOf(f) :: h) + (set f, h | f in files && h in HashesOf(f) :: h)
    ensures ScanSeqs(db, epoch) ==
        (set f, q | f in inbox && q in SeqsOf(f) :: q) + (set f, q | f in files && q in SeqsOf(f) :: q)
  {
    hide InboxCovers;
    assert (set n, h | n in db.mn && h in HashesOf(db.mn[n]) :: h) == (set f, h | f in files && h in HashesOf(f) :: h);
    assert (set n, q | n in db.mn && q in SeqsOf(db.mn[n]) :: q) == (set f, q | f in files && q in SeqsOf(f) :: q);
    GatheredInbox(db, epoch, inbox);
  }

  lemma GatheredInbox(db: Db, epoch: Epoch, inbox: set<FileInfo>)
    requires inbox == (set k | k in db.mi && k.0 == epoch && InboxCovers(epoch, k.1) :: db.mi[k])
    ensures (set k, h | k in db.mi && k.0 == epoch && InboxCovers(epoch, k.1) && h in HashesOf(db.mi[k]) :: h) ==
        (set f, h | f in inbox && h in HashesOf(f) :: h)
    ensures (set k, q | k in db.mi && k.0 == epoch && InboxCovers(epoch, k.1) && q in SeqsOf(db.mi[k]) :: q) ==
        (set f, q | f in inbox && q in SeqsOf(f) :: q)
  {
    hide InboxCovers;
  }

  // ---------------------------------------------------------------- sets gathered by loops

  lemma RecordMore(jobs: map<nat, Job>, pairs: set<(Hash, nat)>, p: (Hash, nat))
    ensures Record(Record(jobs, pairs), {p}) == Record(jobs, pairs + {p})
  {
    var a, b := Record(Record(jobs, pairs), {p}), Record(jobs, pairs + {p});
    forall j | j in jobs ensures a[j] == b[j] {
      assert (set x | x in pairs + {p} :: x.0) == (set x | x in pairs :: x.0) + {p.0};
      assert (set x | x in pairs + {p} :: x.1) == (set x | x in pairs :: x.1) + {p.1};
      assert (set x | x in {p} :: x.0) == {p.0} && (set x | x in {p} :: x.1) == {p.1};
      assert a[j].hashes == b[j].hashes && a[j].seqs == b[j].seqs;
    }
  }

  method SeparatedBlocks(blocks: seq<Block>) returns (r: set<(Hash, nat)>)
    ensures r == Separated(blocks)
  {
    r := {};
    for i := 0 to |blocks|
      invariant r == Separated(blocks[..i])
    {
      var b := blocks[i];
      assert blocks[..i + 1] == blocks[..i] + [b];
      if b.blockseq.Some? && |b.hash| == HASH_LEN {
        r := r + {(b.hash, b.blockseq.value)};
      }
    }
    assert blocks[..|blocks|] == blocks;
  }

  lemma NoneSeparated(f: WireInfo)
    ensures Separated(FromWire(f).blocks) == {}
  {
    forall b | b in FromWire(f).blocks ensures b.blockseq.None? {
      var i :| 0 <= i < |f.blocks| && b == FromWire(f).blocks[i];
    }
  }
}
