/** Every separated block of an entry has its reverse reference, as long as no job prunes one. */
module FolderRefs {
  import opened Prelude
  import opened Files
  import opened VersionVectors
  import opened FolderModel
  import opened FolderRuns

  /** The references that an entry calls for. */
  function RefsOf(name: Name, f: FileInfo): set<(Hash, Name)> {
    set b | b in f.blocks && b.blockseq.Some? && |b.hash| == HASH_LEN :: (b.hash, name)
  }

  predicate Referred(db: Db) {
    && (forall n | n in db.mn :: RefsOf(n, db.mn[n]) <= db.mr)
    && forall k | k in db.mi :: RefsOf(k.1, db.mi[k]) <= db.mr
  }

  lemma RefIs(name: Name, f: FileInfo, i: nat)
    requires i < |f.blocks| && f.blocks[i].blockseq.Some? && |f.blocks[i].hash| == HASH_LEN
    ensures (f.blocks[i].hash, name) in RefsOf(name, f)
  {
    assert f.blocks[i] in f.blocks;
  }

  lemma NoRefs(name: Name, f: WireInfo)
    ensures RefsOf(name, FromWire(f)) == {}
  {}

  lemma CarryRefs(name: Name, f: FileInfo, prior: FileInfo)
    ensures RefsOf(name, f.(blocks := Carry(f.blocks, prior.blocks))) <= RefsOf(name, f) + RefsOf(name, prior)
  {
    var g := f.(blocks := Carry(f.blocks, prior.blocks));
    forall b | b in g.blocks && b.blockseq.Some? && |b.hash| == HASH_LEN
      ensures (b.hash, name) in RefsOf(name, f) + RefsOf(name, prior)
    {
      var i :| 0 <= i < |g.blocks| && g.blocks[i] == b;
      assert b == CarryOne(f.blocks[i], prior.blocks);
      if b == f.blocks[i] { RefIs(name, f, i); }
      else {
        var k :| 0 <= k < |prior.blocks| && prior.blocks[k] == FirstPointed(prior.blocks, b.hash).value;
        RefIs(name, prior, k);
      }
    }
  }

  lemma PointRefs(name: Name, f: FileInfo, hash: Hash, q: Option<nat>, d: Option<Bytes>)
    ensures RefsOf(name, f.(blocks := Point(f.blocks, hash, q, d))) <=
            RefsOf(name, f) + (if q.Some? then {(hash, name)} else {})
  {
    var g := f.(blocks := Point(f.blocks, hash, q, d));
    forall b | b in g.blocks && b.blockseq.Some? && |b.hash| == HASH_LEN
      ensures (b.hash, name) in RefsOf(name, f) + (if q.Some? then {(hash, name)} else {})
    {
      var i :| 0 <= i < |g.blocks| && g.blocks[i] == b;
      if f.blocks[i].hash != hash { RefIs(name, f, i); }
    }
  }

  lemma CommitRefs(db: Db, name: Name, stored: FileInfo)
    requires Referred(db) && RefsOf(name, stored) <= db.mr
    ensures Referred(Commit(db, name, stored))
  {
    hide Carry;
    if name in db.mn { CarryRefs(name, stored, db.mn[name]); }
    var f := Carried(db, name, stored);
    assert RefsOf(name, f.(sequence := db.maxSequence + 1)) == RefsOf(name, f);
  }

  lemma LinkRefs(db: Db, slot: Slot, name: Name, hash: Hash, q: Option<nat>, d: Option<Bytes>)
    requires HasSlot(db, slot, name) && Referred(db) && (q.Some? ==> (hash, name) in db.mr)
    ensures Referred(Link(db, slot, name, hash, q, d)) && Link(db, slot, name, hash, q, d).mr == db.mr
  {
    hide Point;
    PointRefs(name, Entry(db, slot, name), hash, q, d);
  }

  lemma MoreRefs(db: Db, mr: set<(Hash, Name)>, mb: map<(Name, Hash), nat>, bd: map<nat, Bytes>)
    requires Referred(db) && db.mr <= mr
    ensures Referred(db.(mr := mr, mb := mb, bd := bd))
  {}

  lemma LinkedRefs(db: Db, e: Option<Epoch>, name: Name, hash: Hash, dir: Name, data: Bytes, q: nat)
    requires CanLink(db, e, name, hash) && Referred(db)
    ensures Referred(StoreInline(db, e, name, hash, data))
    ensures Referred(ShareBlock(db, e, name, hash, dir, q))
    ensures Referred(NewBlock(db, e, name, hash, data, q))
    ensures db.mr == StoreInline(db, e, name, hash, data).mr && db.mr <= ShareBlock(db, e, name, hash, dir, q).mr
    ensures db.mr <= NewBlock(db, e, name, hash, data, q).mr
  {
    hide Link, Dirname, Mentions, Referred;
    var slot, mr := FindEntry(db, e, name).value, db.mr + {(hash, name)};
    LinkRefs(db, slot, name, hash, None, Some(data));
    var mb := if dir != Dirname(name) then db.mb[(Dirname(name), hash) := q] else db.mb;
    MoreRefs(db, mr, mb, db.bd);
    LinkRefs(db.(mr := mr, mb := mb, bd := db.bd), slot, name, hash, Some(q), None);
    mb := db.mb[(Dirname(name), hash) := q];
    MoreRefs(db, mr, mb, db.bd[q := data]);
    LinkRefs(db.(mr := mr, mb := mb, bd := db.bd[q := data]), slot, name, hash, Some(q), None);
  }

  lemma CopyRefs(db: Db, f: WireInfo, blocks: seq<Block>)
    requires Referred(db)
    ensures Referred(CommitCopy(db, f, blocks))
  {
    var refs := set p | p in Separated(blocks) :: (p.0, f.name);
    var stored := FromWire(f).(blocks := blocks);
    forall b | b in blocks && b.blockseq.Some? && |b.hash| == HASH_LEN ensures (b.hash, f.name) in refs {
      assert (b.hash, b.blockseq.value) in Separated(blocks);
    }
    assert RefsOf(f.name, stored) <= db.mr + refs;
    hide Separated, RefsOf, Commit;
    MoreRefs(db, db.mr + refs, db.mb, db.bd);
    CommitRefs(db.(mr := db.mr + refs), f.name, stored);
  }

  lemma PutRefs(db: Db, f: WireInfo)
    requires Referred(db)
    ensures Referred(PutFile(db, f))
  {
    NoRefs(f.name, f);
    CommitRefs(db, f.name, FromWire(f));
  }

  lemma PromoteRefs(db: Db, e: Epoch, name: Name)
    requires Referred(db) && (e, name) in db.mi
    ensures Referred(PromoteStaged(db, e, name))
  {
    hide RefsOf, Commit;
    CommitRefs(db.(mi := db.mi - {(e, name)}), name, db.mi[(e, name)]);
  }

  // ---------------------------------------------------------------- runs

  /** In every state a crash could leave; and what a call has read of an entry is still referred to. */
  predicate AllReferred(s: State) {
    && Shaped(s) && (forall k | 0 <= k < |s.history| :: Referred(s.history[k]))
    && forall p | p in s.calls.peeked :: RefsOf(p.0, p.1) <= Now(s).mr
  }

  lemma PutsReferred(s: State, a: Action)
    requires AllReferred(s) && (a.Metadata? || a.Resolve? || a.Copy?) && CanWrite(s, a, CODE)
    ensures var t := Wrote(s, a); t.history == s.history + [Now(t)] && Referred(Now(t)) && Now(s).mr <= Now(t).mr
  {
    hide CanMove, Moved, Referred, Separated, SeqsIn, Carried;
    var db := Now(s);
    match a
    case Metadata(f) => PutRefs(db, f);
    case Resolve(f) => PutRefs(db, f);
    case Copy(c) => CopyRefs(db, c.f, c.blocks);
  }

  lemma LinksReferred(s: State, a: Action)
    requires AllReferred(s) && (a.Inline? || a.Fresh? || a.Share?) && CanWrite(s, a, CODE)
    ensures var t := Wrote(s, a); t.history == s.history + [Now(t)] && Referred(Now(t)) && Now(s).mr <= Now(t).mr
  {
    hide CanMove, Moved, Referred, CanLink, Supplies, StoreInline, ShareBlock, NewBlock;
    var db := Now(s);
    match a
    case Inline(name, hash, data) => LinkedRefs(db, Some(s.epoch), name, hash, [], data, 0);
    case Fresh(name, hash, data, q) => LinkedRefs(db, Some(s.epoch), name, hash, [], data, q);
    case Share(name, f) => LinkedRefs(db, Some(s.epoch), name, f.hash, f.dir, [], f.seqno);
  }

  lemma RestReferred(s: State, a: Action)
    requires a.Stage? || a.Complete? || a.LateComplete? || a.Restore? || a.GcInbox? || a.Peer?
    requires AllReferred(s) && CanWrite(s, a, CODE)
    ensures var t := Wrote(s, a); t.history == s.history + [Now(t)] && Referred(Now(t)) && Now(s).mr <= Now(t).mr
  {
    hide CanMove, Moved, RefsOf, Carried, Carry, Files.Complete, SeqsOf, Told, ValidInfo, ValidName;
    var db := Now(s);
    match a
    case Stage(f) => NoRefs(f.name, f);
    case Complete(name, _) => PromoteRefs(db, s.epoch, name);
    case LateComplete(name, _, _) => PromoteRefs(db, s.epoch, name);
    case Restore(name, f) =>
    case GcInbox =>
    case Peer(_, _) =>
  }

  lemma WriteReferred(s: State, t: State)
    requires AllReferred(s) && Shaped(t) && t.history == s.history + [Now(t)] && t.calls == s.calls
    requires Referred(Now(t)) && Now(s).mr <= Now(t).mr
    ensures AllReferred(t)
  {
    hide Referred, RefsOf;
  }

  lemma QuietReferred(s: State, a: Action)
    requires AllReferred(s) && Quiet(a) && CanMove(s, a, CODE)
    ensures AllReferred(Moved(s, a))
  {
    hide CanWrite, Wrote, RefsOf;
    if a.Peek? {
      assert RefsOf(a.name, Now(s).mn[a.name]) <= Now(s).mr;
    } else {
      hide CanMove, Moved, Referred;
      QuietFrame(s, a);
    }
  }

  lemma PrunedReferred(f: Filter, db: Db, row: Row)
    requires Referred(db) && !row.ReverseRow?
    ensures Referred(Pruned(f, db, row)) && Pruned(f, db, row).mr == db.mr
  {
    hide RefsOf, Prunes;
  }

  lemma LostReferred(s: State, a: Action)
    requires a.Install? || a.Crash? || (a.Drop? && !a.row.ReverseRow?)
    requires AllReferred(s) && CanMove(s, a, CODE)
    ensures AllReferred(Moved(s, a))
  {
    hide CanWrite, Wrote, RefsOf, Pruned, JudgedInTime, StagedSeqs;
    var t := Moved(s, a);
    if a.Drop? {
      forall k | 0 <= k < |t.history| ensures Referred(t.history[k]) && t.history[k].mr == s.history[k].mr {
        PrunedReferred(FilterOf(s, a.job), s.history[k], a.row);
      }
    }
  }

  lemma TakeReferred(s: State, hash: Hash)
    requires AllReferred(s) && CanMove(s, Number(hash), CODE)
    ensures AllReferred(Moved(s, Number(hash)))
  {
    hide CanWrite, Wrote, RefsOf, Allocate, Referred;
    var t := Moved(s, Number(hash));
    if |t.history| > |s.history| { SameReferred(Now(s), Now(t)); }
  }

  lemma SameReferred(db: Db, t: Db)
    requires Referred(db) && t.mn == db.mn && t.mi == db.mi && t.mr == db.mr
    ensures Referred(t)
  {}

  lemma StepReferred(s: State, a: Action)
    requires AllReferred(s) && Enabled(s, a, CODE) && !(a.Drop? && a.row.ReverseRow?)
    ensures AllReferred(Next(s, a))
  {
    hide AllReferred, Referred, CanWrite, CanMove, Wrote, Moved;
    if Writes(a) {
      WroteFrame(s, a);
      if a.Inline? || a.Fresh? || a.Share? { LinksReferred(s, a); }
      else if a.Metadata? || a.Resolve? || a.Copy? { PutsReferred(s, a); }
      else { RestReferred(s, a); }
      WriteReferred(s, Wrote(s, a));
    } else if Quiet(a) {
      QuietReferred(s, a);
    } else if a.Number? {
      TakeReferred(s, a.hash);
    } else {
      LostReferred(s, a);
    }
  }

  lemma {:induction false} RunReferred(s: State, acts: seq<Action>, t: State)
    requires Runs(s, acts, t, CODE) && AllReferred(s)
    requires forall i | 0 <= i < |acts| :: !(acts[i].Drop? && acts[i].row.ReverseRow?)
    ensures AllReferred(t)
    decreases |acts|
  {
    hide AllReferred, Enabled, Next;
    if acts != [] {
      StepReferred(s, acts[0]);
      forall i | 0 <= i < |acts[1..]| ensures !(acts[1..][i].Drop? && acts[1..][i].row.ReverseRow?) {
        assert acts[1..][i] == acts[i + 1];
      }
      RunReferred(Next(s, acts[0]), acts[1..], t);
    }
  }

  /**
    In every run in which no job prunes a reference, crashes included: each separated block of a committed
    or staged file, stored, shared, carried over or copied, has the reference under the file's name.
   */
  lemma ReferencesComplete(e: Epoch, acts: seq<Action>, s: State)
    requires Runs(Initial(e), acts, s, CODE)
    requires forall i | 0 <= i < |acts| :: !(acts[i].Drop? && acts[i].row.ReverseRow?)
    ensures Shaped(s)
    ensures forall n, b | n in Now(s).mn && b in Now(s).mn[n].blocks && b.blockseq.Some? && |b.hash| == HASH_LEN ::
              (b.hash, n) in Now(s).mr
    ensures forall k, b | k in Now(s).mi && b in Now(s).mi[k].blocks && b.blockseq.Some? && |b.hash| == HASH_LEN ::
              (b.hash, k.1) in Now(s).mr
  {
    hide Runs;
    RunReferred(Initial(e), acts, s);
    var db := Now(s);
    assert Referred(db);
    forall n, b | n in db.mn && b in db.mn[n].blocks && b.blockseq.Some? && |b.hash| == HASH_LEN
      ensures (b.hash, n) in db.mr
    {
      assert (b.hash, n) in RefsOf(n, db.mn[n]);
    }
    forall k, b | k in db.mi && b in db.mi[k].blocks && b.blockseq.Some? && |b.hash| == HASH_LEN
      ensures (b.hash, k.1) in db.mr
    {
      assert (b.hash, k.1) in RefsOf(k.1, db.mi[k]);
    }
  }
}
