/** The runs of a folder are runs of the library, and reads agree. */
module FolderRefinement {
  import opened Prelude
  import opened Files
  import opened VersionVectors
  import opened StoreKeys
  import opened FolderModel
  import opened FolderRuns
  import FolderGc
  import FolderContent
  import L = FolderLibrary

  // ---------------------------------------------------------------- the abstraction

  function HashesIn(blocks: seq<Block>): seq<Hash> { seq(|blocks|, i requires 0 <= i < |blocks| => blocks[i].hash) }

  function LayoutOf(blocks: seq<Block>): seq<(int, int)> {
    seq(|blocks|, i requires 0 <= i < |blocks| => (blocks[i].offset, blocks[i].size))
  }

  function DocOf(f: FileInfo): L.Doc {
    L.Doc(f.version, f.deleted, f.size, LayoutOf(f.blocks), HashesIn(f.blocks),
          set b | b in f.blocks && b.HasPointer() :: b.hash)
  }

  function ShelfOf(db: Db): L.Shelf {
    L.Shelf(map n | n in db.mn :: DocOf(db.mn[n]), map k | k in db.mi :: DocOf(db.mi[k]))
  }

  function NoteOf(c: Captured): L.Note { L.Note(c.f, DocOf(FromWire(c.f).(blocks := c.blocks))) }

  function LibraryOf(s: State): L.Library {
    L.Library(seq(|s.history|, k requires 0 <= k < |s.history| => ShelfOf(s.history[k])), s.flushed, s.epoch,
              s.supplied, set c | c in s.calls.copies :: NoteOf(c), set p | p in s.calls.peeked :: (p.0, DocOf(p.1)))
  }

  lemma HasIff(f: FileInfo, h: Hash)
    ensures h in DocOf(f).has <==> exists i :: 0 <= i < |f.blocks| && f.blocks[i].hash == h && f.blocks[i].HasPointer()
    ensures h in DocOf(f).has <==> FirstPointed(f.blocks, h).Some?
    ensures h in DocOf(f).hashes <==> exists i :: 0 <= i < |f.blocks| && f.blocks[i].hash == h
  {
    if h in DocOf(f).has {
      var b :| b in f.blocks && b.HasPointer() && b.hash == h;
    }
    if i :| 0 <= i < |f.blocks| && f.blocks[i].hash == h && f.blocks[i].HasPointer() { assert f.blocks[i] in f.blocks; }
    if h in DocOf(f).hashes {
      var i :| 0 <= i < |f.blocks| && DocOf(f).hashes[i] == h;
    }
    if i :| 0 <= i < |f.blocks| && f.blocks[i].hash == h { assert DocOf(f).hashes[i] == h; }
    if FirstPointed(f.blocks, h).Some? { assert FirstPointed(f.blocks, h).value in f.blocks; }
  }

  lemma WireDoc(f: WireInfo)
    ensures DocOf(FromWire(f)) == L.Blank(f)
  {
    var d := DocOf(FromWire(f));
    forall h ensures h !in d.has { HasIff(FromWire(f), h); }
    assert d.hashes == L.Blank(f).hashes && d.layout == L.Blank(f).layout;
  }

  lemma CarryDoc(f: FileInfo, prior: FileInfo)
    ensures DocOf(f.(blocks := Carry(f.blocks, prior.blocks))) == L.Inheriting(DocOf(f), DocOf(prior))
  {
    var g := f.(blocks := Carry(f.blocks, prior.blocks));
    assert DocOf(g).hashes == DocOf(f).hashes && DocOf(g).layout == DocOf(f).layout;
    forall h ensures h in DocOf(g).has <==> h in L.Inheriting(DocOf(f), DocOf(prior)).has {
      HasIff(g, h);
      HasIff(f, h);
      HasIff(prior, h);
      CarryHas(f.blocks, prior.blocks, h);
    }
  }

  lemma CarryHas(blocks: seq<Block>, prior: seq<Block>, h: Hash)
    ensures var c := Carry(blocks, prior);
            (exists i :: 0 <= i < |c| && c[i].hash == h && c[i].HasPointer()) <==>
            (exists i :: 0 <= i < |blocks| && blocks[i].hash == h && blocks[i].HasPointer())
            || ((exists i :: 0 <= i < |blocks| && blocks[i].hash == h) && FirstPointed(prior, h).Some?)
  {
    var c := Carry(blocks, prior);
    forall i | 0 <= i < |blocks|
      ensures c[i].hash == blocks[i].hash
      ensures c[i].HasPointer() <==> blocks[i].HasPointer() || FirstPointed(prior, blocks[i].hash).Some?
    {
      assert c[i] == CarryOne(blocks[i], prior);
    }
  }

  lemma PointDoc(f: FileInfo, hash: Hash, q: Option<nat>, d: Option<Bytes>)
    requires (q.Some? || d.Some?) && Mentions(f.blocks, hash)
    ensures DocOf(f.(blocks := Point(f.blocks, hash, q, d))) == L.Arrived(DocOf(f), hash)
  {
    var g := f.(blocks := Point(f.blocks, hash, q, d));
    assert DocOf(g).hashes == DocOf(f).hashes && DocOf(g).layout == DocOf(f).layout;
    forall h ensures h in DocOf(g).has <==> h in L.Arrived(DocOf(f), hash).has {
      HasIff(g, h);
      HasIff(f, h);
      PointHas(f.blocks, hash, q, d, h);
    }
  }

  lemma PointHas(blocks: seq<Block>, hash: Hash, q: Option<nat>, d: Option<Bytes>, h: Hash)
    requires (q.Some? || d.Some?) && Mentions(blocks, hash)
    ensures var c := Point(blocks, hash, q, d);
            (exists i :: 0 <= i < |c| && c[i].hash == h && c[i].HasPointer()) <==>
            h == hash || exists i :: 0 <= i < |blocks| && blocks[i].hash == h && blocks[i].HasPointer()
  {
    var c := Point(blocks, hash, q, d);
    forall i | 0 <= i < |blocks|
      ensures c[i].hash == blocks[i].hash && (c[i].HasPointer() <==> blocks[i].HasPointer() || blocks[i].hash == hash)
    {
    }
    var m :| 0 <= m < |blocks| && blocks[m].hash == hash;
    assert c[m].hash == hash && c[m].HasPointer();
  }

  // ---------------------------------------------------------------- operations

  lemma CommitShelf(db: Db, name: Name, stored: FileInfo)
    ensures ShelfOf(Commit(db, name, stored)) == L.Committed(ShelfOf(db), name, DocOf(stored))
  {
    var t := Commit(db, name, stored);
    if name in db.mn { CarryDoc(stored, db.mn[name]); }
    assert DocOf(t.mn[name]) == DocOf(Carried(db, name, stored));
    assert ShelfOf(t).committed == L.Committed(ShelfOf(db), name, DocOf(stored)).committed;
  }

  lemma SameShelf(db: Db, t: Db)
    requires t.mn == db.mn && t.mi == db.mi
    ensures ShelfOf(t) == ShelfOf(db)
  {}

  lemma CopyShelf(db: Db, c: Captured)
    ensures ShelfOf(CommitCopy(db, c.f, c.blocks)) == L.Committed(ShelfOf(db), c.f.name, NoteOf(c).doc)
  {
    hide Carry, DocOf, Separated;
    var refs := set p | p in Separated(c.blocks) :: (p.0, c.f.name);
    SameShelf(db, db.(mr := db.mr + refs));
    CommitShelf(db.(mr := db.mr + refs), c.f.name, FromWire(c.f).(blocks := c.blocks));
  }

  lemma TakenNote(db: Db, f: WireInfo, from: Name)
    ensures NoteOf(Captured(f, CopyBlocks(db, f, from))).doc ==
            if from in db.mn then L.Inheriting(L.Blank(f), DocOf(db.mn[from])) else L.Blank(f)
  {
    hide Carry, DocOf;
    WireDoc(f);
    if from in db.mn { CarryDoc(FromWire(f), db.mn[from]); }
  }

  lemma PromoteShelf(db: Db, e: Epoch, name: Name)
    requires (e, name) in db.mi
    ensures ShelfOf(PromoteStaged(db, e, name)) == L.Promoted(ShelfOf(db), e, name)
  {
    var mid := db.(mi := db.mi - {(e, name)});
    assert ShelfOf(mid) == ShelfOf(db).(staged := ShelfOf(db).staged - {(e, name)});
    CommitShelf(mid, name, db.mi[(e, name)]);
  }

  lemma StagedDoc(db: Db, e: Epoch, name: Name)
    requires (e, name) in db.mi
    ensures (e, name) in ShelfOf(db).staged && ShelfOf(db).staged[(e, name)] == DocOf(db.mi[(e, name)])
    ensures DocOf(db.mi[(e, name)]).version == db.mi[(e, name)].version
    ensures ShelfOf(db).committed.Keys == db.mn.Keys
  {}

  lemma FullDoc(f: FileInfo)
    requires Files.Complete(f.blocks)
    ensures L.Full(DocOf(f))
  {
    forall h | h in DocOf(f).hashes ensures h in DocOf(f).has { HasIff(f, h); }
  }

  lemma ReadyShelf(db: Db, e: Epoch, name: Name, expected: Option<Vector>)
    requires CompleteFile(db, e, name, expected).Promoted?
    ensures L.Ready(ShelfOf(db), e, name, expected)
  {
    hide Files.Complete, Carry;
    var staged := db.mi[(e, name)];
    FullDoc(Carried(db, name, staged));
    if name in db.mn { CarryDoc(staged, db.mn[name]); }
  }

  lemma LinkShelf(db: Db, e: Epoch, name: Name, hash: Hash, q: Option<nat>, d: Option<Bytes>)
    requires CanLink(db, Some(e), name, hash) && (q.Some? || d.Some?)
    ensures L.CanArrive(ShelfOf(db), e, name, hash)
    ensures ShelfOf(Link(db, FindEntry(db, Some(e), name).value, name, hash, q, d)) ==
        L.Linked(ShelfOf(db), e, name, hash)
  {
    hide DocOf, Point, Mentions;
    var slot := FindEntry(db, Some(e), name).value;
    var f := Entry(db, slot, name);
    MentionedDoc(f, hash);
    PointDoc(f, hash, q, d);
    EntryShelf(db, slot, name, f.(blocks := Point(f.blocks, hash, q, d)));
  }

  lemma MentionedDoc(f: FileInfo, hash: Hash)
    requires Mentions(f.blocks, hash)
    ensures hash in DocOf(f).hashes
  {
    HasIff(f, hash);
  }

  lemma EntryShelf(db: Db, slot: Slot, name: Name, f: FileInfo)
    ensures ShelfOf(WithEntry(db, slot, name, f)) ==
            match slot
            case Staged(e) => ShelfOf(db).(staged := ShelfOf(db).staged[(e, name) := DocOf(f)])
            case Committed => ShelfOf(db).(committed := ShelfOf(db).committed[name := DocOf(f)])
  {
    hide DocOf;
    var t := ShelfOf(WithEntry(db, slot, name, f));
    match slot
    case Staged(e) => assert t.staged == ShelfOf(db).staged[(e, name) := DocOf(f)];
    case Committed => assert t.committed == ShelfOf(db).committed[name := DocOf(f)];
  }

  // ---------------------------------------------------------------- steps

  /** What a step looks like in the library: at most two events. */
  function EventsOf(s: State, a: Action): (v: seq<L.Event>)
    requires Enabled(s, a, CODE)
    ensures |v| <= 2
  {
    match a
    case Stage(f) => [L.Stage(f)]
    case Complete(name, expected) => [L.Promote(name, expected)]
    case Metadata(f) => [L.Put(f)]
    case Resolve(f) => [L.Put(f)]
    case CopyRead(f, from) => [L.Take(f, from)]
    case Copy(c) => [L.Copy(NoteOf(c))]
    case Inline(name, hash, data) => [L.Arrive(name, hash, Some(data))]
    case Number(_) => Reservation(s)
    case Fresh(name, hash, data, _) => [L.Arrive(name, hash, Some(data))]
    case Share(name, f) => [L.Arrive(name, f.hash, None)]
    case Peek(name) => [L.Hold(name)]
    case Restore(name, f) => [L.Return(name, DocOf(f))]
    case LateComplete(name, expected, f) => [L.LatePromote(name, expected, DocOf(f))]
    case GcInbox => [L.Clear]
    case Peer(_, _) => [L.Idle]
    case Flush => [L.Flush]
    case Drop(j, row) => Losses(s, FilterOf(s, j), row)
    case Crash(k, e) => [L.Crash(k, e)]
    case _ => []
  }

  /** A new reservation of block numbers is a batch that nobody notices, and a flush. */
  function Reservation(s: State): seq<L.Event>
    requires Shaped(s)
  {
    if Allocate(s.range, Now(s).nextBlockseq).refilled then [L.Idle, L.Flush] else []
  }

  function Losses(s: State, f: Filter, row: Row): seq<L.Event> {
    match row
    case FileRow(n) => [L.Forget(n, set k | 0 <= k < |s.history| && Prunes(f, s.history[k], row))]
    case InboxRow(e, n) => if e < f.epoch then [L.Expire(e, n)] else []
    case _ => []
  }

  lemma One(l: L.Library, v: L.Event, m: L.Library)
    requires L.Enabled(l, v) && m == L.Next(l, v)
    ensures L.Runs(l, [v], m)
  {
    assert [v][1..] == [];
    assert L.Runs(m, [], m);
  }

  lemma {:induction false} Joined(l: L.Library, v: seq<L.Event>, m: L.Library, w: seq<L.Event>, n: L.Library)
    requires L.Runs(l, v, m) && L.Runs(m, w, n)
    ensures L.Runs(l, v + w, n)
    decreases |v|
  {
    hide L.Enabled, L.Next;
    if v == [] {
      assert v + w == w;
    } else {
      assert (v + w)[0] == v[0] && (v + w)[1..] == v[1..] + w;
      Joined(L.Next(l, v[0]), v[1..], m, w, n);
    }
  }

  /** One batch: the library grows by its shelf. */
  lemma Batch(s: State, t: State, db: Db)
    requires Shaped(s) && t.history == s.history + [db] && t.flushed == s.flushed && t.epoch == s.epoch
    requires t.calls == s.calls
    ensures L.Shaped(LibraryOf(s)) && L.Top(LibraryOf(s)) == ShelfOf(Now(s))
    ensures LibraryOf(t) == L.Append(LibraryOf(s), ShelfOf(db)).(content := t.supplied)
  {
    hide ShelfOf;
    assert LibraryOf(t).history == LibraryOf(s).history + [ShelfOf(db)];
  }

  lemma StageStep(s: State, f: WireInfo)
    requires Enabled(s, Stage(f), CODE)
    ensures L.Runs(LibraryOf(s), [L.Stage(f)], LibraryOf(Next(s, Stage(f))))
  {
    hide DocOf, ValidName, ValidInfo;
    var db, t := StageFile(Now(s), s.epoch, f), Next(s, Stage(f));
    Batch(s, t, db);
    WireDoc(f);
    assert ShelfOf(db).staged == ShelfOf(Now(s)).staged[(s.epoch, f.name) := L.Blank(f)];
    One(LibraryOf(s), L.Stage(f), LibraryOf(t));
  }

  lemma PromoteStep(s: State, name: Name, expected: Option<Vector>)
    requires Enabled(s, Complete(name, expected), CODE)
    ensures L.Runs(LibraryOf(s), [L.Promote(name, expected)], LibraryOf(Next(s, Complete(name, expected))))
  {
    hide ShelfOf;
    var db, t := CompleteFile(Now(s), s.epoch, name, expected).db, Next(s, Complete(name, expected));
    Batch(s, t, db);
    ReadyShelf(Now(s), s.epoch, name, expected);
    PromoteShelf(Now(s), s.epoch, name);
    One(LibraryOf(s), L.Promote(name, expected), LibraryOf(t));
  }

  lemma PutStep(s: State, f: WireInfo)
    requires Shaped(s)
    ensures L.Runs(LibraryOf(s), [L.Put(f)], LibraryOf(Write(s, PutFile(Now(s), f))))
  {
    hide ShelfOf;
    var db := PutFile(Now(s), f);
    Batch(s, Write(s, db), db);
    WireDoc(f);
    CommitShelf(Now(s), f.name, FromWire(f));
    One(LibraryOf(s), L.Put(f), LibraryOf(Write(s, db)));
  }

  lemma CopyStep(s: State, c: Captured)
    requires Enabled(s, Copy(c), CODE)
    ensures L.Runs(LibraryOf(s), [L.Copy(NoteOf(c))], LibraryOf(Next(s, Copy(c))))
  {
    hide DocOf, ShelfOf, CommitCopy, Separated;
    var db, t := CommitCopy(Now(s), c.f, c.blocks), Next(s, Copy(c));
    Batch(s, t, db);
    CopyShelf(Now(s), c);
    assert NoteOf(c) in LibraryOf(s).notes;
    One(LibraryOf(s), L.Copy(NoteOf(c)), LibraryOf(t));
  }

  lemma CopyReadStep(s: State, f: WireInfo, from: Name)
    requires Shaped(s)
    ensures var c := s.calls;
            L.Runs(LibraryOf(s), [L.Take(f, from)],
                   LibraryOf(s.(calls := c.(copies := c.copies + {Captured(f, CopyBlocks(Now(s), f, from))}))))
  {
    hide DocOf, CopyBlocks;
    var x, c := Captured(f, CopyBlocks(Now(s), f, from)), s.calls;
    var t := s.(calls := c.(copies := c.copies + {x}));
    TakenNote(Now(s), f, from);
    assert L.Top(LibraryOf(s)) == ShelfOf(Now(s));
    assert LibraryOf(t).history == LibraryOf(s).history && LibraryOf(t).held == LibraryOf(s).held;
    assert LibraryOf(t).notes == LibraryOf(s).notes + {NoteOf(x)};
    One(LibraryOf(s), L.Take(f, from), LibraryOf(t));
  }

  lemma PeekStep(s: State, name: Name)
    requires Shaped(s) && name in Now(s).mn
    ensures var c := s.calls;
            L.Runs(LibraryOf(s), [L.Hold(name)],
                   LibraryOf(s.(calls := c.(peeked := c.peeked + {(name, Now(s).mn[name])}))))
  {
    hide DocOf, NoteOf;
    var f, c := Now(s).mn[name], s.calls;
    var t := s.(calls := c.(peeked := c.peeked + {(name, f)}));
    assert L.Top(LibraryOf(s)) == ShelfOf(Now(s));
    assert LibraryOf(t).history == LibraryOf(s).history && LibraryOf(t).notes == LibraryOf(s).notes;
    assert LibraryOf(t).held == LibraryOf(s).held + {(name, DocOf(f))};
    One(LibraryOf(s), L.Hold(name), LibraryOf(t));
  }

  lemma RestoreStep(s: State, name: Name, f: FileInfo)
    requires Shaped(s) && (name, f) in s.calls.peeked && name !in Now(s).mn
    ensures L.Runs(LibraryOf(s), [L.Return(name, DocOf(f))],
                   LibraryOf(Write(s, Now(s).(mn := Now(s).mn[name := f]))))
  {
    hide DocOf, NoteOf;
    var db := Now(s).(mn := Now(s).mn[name := f]);
    Batch(s, Write(s, db), db);
    assert ShelfOf(db).committed == ShelfOf(Now(s)).committed[name := DocOf(f)];
    assert (name, DocOf(f)) in LibraryOf(s).held by { assert (name, f) in s.calls.peeked; }
    One(LibraryOf(s), L.Return(name, DocOf(f)), LibraryOf(Write(s, db)));
  }

  lemma LateStep(s: State, name: Name, expected: Option<Vector>, f: FileInfo)
    requires Enabled(s, LateComplete(name, expected, f), CODE)
    ensures L.Runs(LibraryOf(s), [L.LatePromote(name, expected, DocOf(f))],
                   LibraryOf(Write(s, PromoteStaged(Now(s), s.epoch, name))))
  {
    hide DocOf, ShelfOf, NoteOf, PromoteStaged, Carry, Files.Complete;
    var db, staged := PromoteStaged(Now(s), s.epoch, name), Now(s).mi[(s.epoch, name)];
    Batch(s, Write(s, db), db);
    PromoteShelf(Now(s), s.epoch, name);
    StagedDoc(Now(s), s.epoch, name);
    CarryDoc(staged, f);
    FullDoc(staged.(blocks := Carry(staged.blocks, f.blocks)));
    assert (name, DocOf(f)) in LibraryOf(s).held by { assert (name, f) in s.calls.peeked; }
    One(LibraryOf(s), L.LatePromote(name, expected, DocOf(f)), LibraryOf(Write(s, db)));
  }

  lemma InlineStep(s: State, name: Name, hash: Hash, data: Bytes)
    requires Enabled(s, Inline(name, hash, data), CODE)
    ensures L.Runs(LibraryOf(s), [L.Arrive(name, hash, Some(data))], LibraryOf(Next(s, Inline(name, hash, data))))
  {
    hide ShelfOf, Link, Mentions;
    var db, t := StoreInline(Now(s), Some(s.epoch), name, hash, data), Next(s, Inline(name, hash, data));
    Batch(s, t, db);
    LinkShelf(Now(s), s.epoch, name, hash, None, Some(data));
    One(LibraryOf(s), L.Arrive(name, hash, Some(data)), LibraryOf(t));
  }

  lemma ShareShelf(db: Db, e: Epoch, name: Name, hash: Hash, dir: Name, q: nat)
    requires CanLink(db, Some(e), name, hash)
    ensures L.CanArrive(ShelfOf(db), e, name, hash)
    ensures ShelfOf(ShareBlock(db, Some(e), name, hash, dir, q)) == L.Linked(ShelfOf(db), e, name, hash)
  {
    hide Link, Dirname, Mentions, DocOf;
    var mb := if dir != Dirname(name) then db.mb[(Dirname(name), hash) := q] else db.mb;
    var mid := db.(mb := mb, mr := db.mr + {(hash, name)});
    SameShelf(db, mid);
    LinkShelf(mid, e, name, hash, Some(q), None);
  }

  lemma NewShelf(db: Db, e: Epoch, name: Name, hash: Hash, data: Bytes, q: nat)
    requires CanLink(db, Some(e), name, hash)
    ensures L.CanArrive(ShelfOf(db), e, name, hash)
    ensures ShelfOf(NewBlock(db, Some(e), name, hash, data, q)) == L.Linked(ShelfOf(db), e, name, hash)
  {
    hide Link, Dirname, Mentions, DocOf;
    var mid := db.(bd := db.bd[q := data], mb := db.mb[(Dirname(name), hash) := q], mr := db.mr + {(hash, name)});
    SameShelf(db, mid);
    LinkShelf(mid, e, name, hash, Some(q), None);
  }

  lemma ShareStep(s: State, name: Name, f: Sighting)
    requires Enabled(s, Share(name, f), CODE) && f.hash in s.supplied
    ensures L.Runs(LibraryOf(s), [L.Arrive(name, f.hash, None)], LibraryOf(Next(s, Share(name, f))))
  {
    hide ShelfOf, ShareBlock, Mentions, DocOf;
    var db, t := ShareBlock(Now(s), Some(s.epoch), name, f.hash, f.dir, f.seqno), Next(s, Share(name, f));
    Batch(s, t, db);
    ShareShelf(Now(s), s.epoch, name, f.hash, f.dir, f.seqno);
    One(LibraryOf(s), L.Arrive(name, f.hash, None), LibraryOf(t));
  }

  lemma NumberStep(s: State, hash: Hash)
    requires Shaped(s)
    ensures L.Runs(LibraryOf(s), Reservation(s), LibraryOf(Take(s, hash).(taken := s.taken[Taken(s) := hash])))
  {
    hide ShelfOf, DocOf;
    var a, t := Allocate(s.range, Now(s).nextBlockseq), Take(s, hash).(taken := s.taken[Taken(s) := hash]);
    if a.refilled {
      var db := Now(s).(nextBlockseq := a.nextBlockseq);
      var mid := Write(s, db);
      SameShelf(Now(s), db);
      Batch(s, mid, db);
      One(LibraryOf(s), L.Idle, LibraryOf(mid));
      assert LibraryOf(t) == L.Next(LibraryOf(mid), L.Flush);
      One(LibraryOf(mid), L.Flush, LibraryOf(t));
      Joined(LibraryOf(s), [L.Idle], LibraryOf(mid), [L.Flush], LibraryOf(t));
      assert [L.Idle] + [L.Flush] == [L.Idle, L.Flush];
    } else {
      assert LibraryOf(t) == LibraryOf(s);
    }
  }

  lemma FreshStep(s: State, name: Name, hash: Hash, data: Bytes, q: nat)
    requires Enabled(s, Fresh(name, hash, data, q), CODE)
    ensures L.Runs(LibraryOf(s), [L.Arrive(name, hash, Some(data))], LibraryOf(Next(s, Fresh(name, hash, data, q))))
  {
    hide ShelfOf, NewBlock, Mentions, DocOf;
    var db, t := NewBlock(Now(s), Some(s.epoch), name, hash, data, q), Next(s, Fresh(name, hash, data, q));
    Batch(s, t, db);
    NewShelf(Now(s), s.epoch, name, hash, data, q);
    One(LibraryOf(s), L.Arrive(name, hash, Some(data)), LibraryOf(t));
  }

  lemma ClearStep(s: State)
    requires Shaped(s)
    ensures L.Runs(LibraryOf(s), [L.Clear], LibraryOf(Write(s, FolderModel.GcInbox(Now(s), s.epoch))))
  {
    hide DocOf;
    var db := FolderModel.GcInbox(Now(s), s.epoch);
    Batch(s, Write(s, db), db);
    var staged := ShelfOf(Now(s)).staged;
    var kept := map k | k in staged && k.0 >= s.epoch :: staged[k];
    assert ShelfOf(db).staged == kept;
    assert ShelfOf(db) == ShelfOf(Now(s)).(staged := kept);
    var n := L.Next(LibraryOf(s), L.Clear);
    assert n.history[|s.history|].staged == kept;
    assert n.history == LibraryOf(Write(s, db)).history;
    One(LibraryOf(s), L.Clear, LibraryOf(Write(s, db)));
  }

  lemma PeerStep(s: State, d: Device, reached: int)
    requires Shaped(s)
    ensures L.Runs(LibraryOf(s), [L.Idle], LibraryOf(Write(s, Now(s).(md := Now(s).md[d := reached]))))
  {
    hide ShelfOf;
    var db := Now(s).(md := Now(s).md[d := reached]);
    SameShelf(Now(s), db);
    Batch(s, Write(s, db), db);
    One(LibraryOf(s), L.Idle, LibraryOf(Write(s, db)));
  }

  /** The shelf after a row is pruned. */
  function Without(f: Filter, db: Db, row: Row): L.Shelf {
    var l := ShelfOf(db);
    match row
    case FileRow(n) => if Prunes(f, db, row) then l.(committed := l.committed - {n}) else l
    case InboxRow(e, n) => if e < f.epoch then l.(staged := l.staged - {(e, n)}) else l
    case _ => l
  }

  lemma PruneShelf(f: Filter, db: Db, row: Row)
    ensures ShelfOf(Pruned(f, db, row)) == Without(f, db, row)
  {
    hide DocOf;
    var t := ShelfOf(Pruned(f, db, row));
    if row.FileRow? && Prunes(f, db, row) {
      assert t.committed == ShelfOf(db).committed - {row.name};
    } else if row.InboxRow? && row.epoch < f.epoch {
      assert t.staged == ShelfOf(db).staged - {(row.epoch, row.name)};
    } else {
      SameShelf(db, Pruned(f, db, row));
    }
  }

  lemma DropShelves(s: State, j: nat, row: Row)
    requires Enabled(s, Drop(j, row), CODE)
    ensures var m := LibraryOf(Next(s, Drop(j, row)));
            && m == LibraryOf(s).(history := m.history) && |m.history| == |s.history|
            && forall k | 0 <= k < |s.history| :: m.history[k] == Without(FilterOf(s, j), s.history[k], row)
  {
    hide ShelfOf, Without, Pruned;
    var t := Next(s, Drop(j, row));
    forall k | 0 <= k < |s.history| ensures LibraryOf(t).history[k] == Without(FilterOf(s, j), s.history[k], row) {
      PruneShelf(FilterOf(s, j), s.history[k], row);
    }
  }

  lemma ForgetStep(s: State, j: nat, name: Name)
    requires Enabled(s, Drop(j, FileRow(name)), CODE)
    ensures L.Runs(LibraryOf(s), Losses(s, FilterOf(s, j), FileRow(name)), LibraryOf(Next(s, Drop(j, FileRow(name)))))
  {
    hide FolderRuns.Next, DocOf;
    DropShelves(s, j, FileRow(name));
    var f, l, m := FilterOf(s, j), LibraryOf(s), LibraryOf(Next(s, Drop(j, FileRow(name))));
    var gone := set k | 0 <= k < |s.history| && Prunes(f, s.history[k], FileRow(name));
    var v := L.Forget(name, gone);
    assert Losses(s, f, FileRow(name)) == [v];
    CanForget(s, f, name);
    assert m.history == L.Next(l, v).history;
    One(l, v, m);
  }

  lemma CanForget(s: State, f: Filter, name: Name)
    requires Shaped(s)
    ensures var gone := set k | 0 <= k < |s.history| && Prunes(f, s.history[k], FileRow(name));
            L.Enabled(LibraryOf(s), L.Forget(name, gone))
  {
    hide LayoutOf, HashesIn;
  }

  lemma ExpireStep(s: State, j: nat, e: Epoch, name: Name)
    requires Enabled(s, Drop(j, InboxRow(e, name)), CODE) && e < s.epoch
    ensures L.Runs(LibraryOf(s), [L.Expire(e, name)], LibraryOf(Next(s, Drop(j, InboxRow(e, name)))))
  {
    hide FolderRuns.Next, DocOf;
    DropShelves(s, j, InboxRow(e, name));
    var l, m, v := LibraryOf(s), LibraryOf(Next(s, Drop(j, InboxRow(e, name)))), L.Expire(e, name);
    assert m.history == L.Next(l, v).history;
    One(l, v, m);
  }

  lemma DropStep(s: State, j: nat, row: Row)
    requires Enabled(s, Drop(j, row), CODE)
    ensures L.Runs(LibraryOf(s), Losses(s, FilterOf(s, j), row), LibraryOf(Next(s, Drop(j, row))))
  {
    hide FolderRuns.Next, ShelfOf;
    if row.FileRow? {
      ForgetStep(s, j, row.name);
    } else if row.InboxRow? && row.epoch < s.epoch {
      ExpireStep(s, j, row.epoch, row.name);
    } else {
      DropShelves(s, j, row);
      assert LibraryOf(Next(s, Drop(j, row))).history == LibraryOf(s).history;
      Nothing(LibraryOf(s));
    }
  }

  lemma InstallStep(s: State, q: nat)
    requires Enabled(s, Install(q), CODE)
    ensures LibraryOf(Next(s, Install(q))) == LibraryOf(s)
  {
    hide DocOf;
    var t := Next(s, Install(q));
    forall k | 0 <= k < |s.history|
      ensures ShelfOf(t.history[k]) == ShelfOf(s.history[k])
    {
      SameShelf(s.history[k], t.history[k]);
    }
    assert LibraryOf(t).history == LibraryOf(s).history;
  }

  lemma CrashStep(s: State, k: nat, e: Epoch)
    requires Enabled(s, Crash(k, e), CODE)
    ensures L.Runs(LibraryOf(s), [L.Crash(k, e)], LibraryOf(Next(s, Crash(k, e))))
  {
    hide ShelfOf;
    var t := Next(s, Crash(k, e));
    assert LibraryOf(t).history == LibraryOf(s).history[..k + 1];
    One(LibraryOf(s), L.Crash(k, e), LibraryOf(t));
  }

  lemma QuietStep(s: State, a: Action)
    requires Shaped(s) && Quiet(a) && CanMove(s, a, CODE) && !a.CopyRead? && !a.Peek? && !a.Flush?
    ensures LibraryOf(Moved(s, a)) == LibraryOf(s)
  {
    hide ShelfOf, NoteOf, CanMove, Moved;
    QuietFrame(s, a);
    assert LibraryOf(Moved(s, a)).history == LibraryOf(s).history;
  }

  lemma FlushStep(s: State)
    requires Shaped(s)
    ensures L.Runs(LibraryOf(s), [L.Flush], LibraryOf(s.(flushed := |s.history| - 1)))
  {
    hide ShelfOf;
    One(LibraryOf(s), L.Flush, LibraryOf(s.(flushed := |s.history| - 1)));
  }

  lemma SuppliedHash(s: State, f: Sighting)
    requires f in s.calls.found && FolderContent.ContentInv(s)
    ensures f.hash in s.supplied
  {
    hide FolderContent.ContentOk, FolderContent.NumbersOk;
    assert FolderContent.SightingOk(f, s.owner, s.supplied);
  }

  lemma LinksSimulate(s: State, a: Action)
    requires a.Inline? || a.Fresh? || a.Share?
    requires Shaped(s) && CanWrite(s, a, CODE) && FolderContent.ContentInv(s)
    ensures L.Runs(LibraryOf(s), EventsOf(s, a), LibraryOf(Wrote(s, a)))
  {
    hide FolderContent.ContentInv, L.Runs, LibraryOf, StoreInline, ShareBlock, NewBlock, CanLink, Supplies, CanMove,
         Moved;
    match a
    case Inline(name, hash, data) => InlineStep(s, name, hash, data);
    case Fresh(name, hash, data, q) => FreshStep(s, name, hash, data, q);
    case Share(name, f) =>
      SuppliedHash(s, f);
      ShareStep(s, name, f);
  }

  lemma CommitsSimulate(s: State, a: Action)
    requires a.Complete? || a.LateComplete? || a.Metadata? || a.Resolve? || a.Copy?
    requires Shaped(s) && CanWrite(s, a, CODE)
    ensures L.Runs(LibraryOf(s), EventsOf(s, a), LibraryOf(Wrote(s, a)))
  {
    hide L.Runs, LibraryOf, NoteOf, DocOf, PutFile, CommitCopy, CompleteFile, PromoteStaged, Carry, Files.Complete,
         Separated, SeqsIn, CanMove, Moved;
    match a
    case Complete(name, expected) => PromoteStep(s, name, expected);
    case LateComplete(name, expected, f) => LateStep(s, name, expected, f);
    case Metadata(f) => PutStep(s, f);
    case Resolve(f) => PutStep(s, f);
    case Copy(c) => CopyStep(s, c);
  }

  lemma RestSimulates(s: State, a: Action)
    requires a.Stage? || a.Restore? || a.GcInbox? || a.Peer?
    requires Shaped(s) && CanWrite(s, a, CODE)
    ensures L.Runs(LibraryOf(s), EventsOf(s, a), LibraryOf(Wrote(s, a)))
  {
    hide L.Runs, LibraryOf, DocOf, StageFile, ValidName, ValidInfo, FolderModel.GcInbox, SeqsOf, Told, CanMove, Moved;
    match a
    case Stage(f) => StageStep(s, f);
    case Restore(name, f) => RestoreStep(s, name, f);
    case GcInbox => ClearStep(s);
    case Peer(d, reached) => PeerStep(s, d, reached);
  }

  lemma WriterSimulates(s: State, a: Action)
    requires Shaped(s) && Writes(a) && CanWrite(s, a, CODE) && FolderContent.ContentInv(s)
    ensures L.Runs(LibraryOf(s), EventsOf(s, a), LibraryOf(Wrote(s, a)))
  {
    hide FolderContent.ContentInv, L.Runs, LibraryOf, EventsOf, CanWrite, Wrote;
    if a.Inline? || a.Fresh? || a.Share? { LinksSimulate(s, a); }
    else if a.Stage? || a.Restore? || a.GcInbox? || a.Peer? { RestSimulates(s, a); }
    else { CommitsSimulate(s, a); }
  }

  lemma OtherSimulates(s: State, a: Action)
    requires Shaped(s) && !Writes(a) && CanMove(s, a, CODE)
    ensures L.Runs(LibraryOf(s), EventsOf(s, a), LibraryOf(Moved(s, a)))
  {
    hide L.Runs, LibraryOf, Losses, Reservation, CopyBlocks, Take, Taken, MetadataOnly, BlockSafe, Refers, FileSeqs,
         LiveSeqs, ScanSeqs, ScanHashes, Visible, JudgedInTime, PeerFloor, PruneAll, LoseAll, Record, FilterOf,
         CanWrite, Wrote;
    if Quiet(a) && !a.CopyRead? && !a.Peek? && !a.Flush? {
      QuietStep(s, a);
      Nothing(LibraryOf(s));
    } else {
      match a
      case CopyRead(f, from) => CopyReadStep(s, f, from);
      case Peek(name) => PeekStep(s, name);
      case Number(hash) => NumberStep(s, hash);
      case Flush => FlushStep(s);
      case Drop(j, row) => DropStep(s, j, row);
      case Install(q) =>
        InstallStep(s, q);
        Nothing(LibraryOf(s));
      case Crash(k, e) => CrashStep(s, k, e);
    }
  }

  /** Every step of the folder is a run of the library, of at most two events. */
  lemma Simulates(s: State, a: Action)
    requires Enabled(s, a, CODE) && FolderContent.ContentInv(s)
    ensures L.Runs(LibraryOf(s), EventsOf(s, a), LibraryOf(Next(s, a))) && |EventsOf(s, a)| <= 2
  {
    hide FolderContent.ContentInv, L.Runs, LibraryOf, CanWrite, CanMove, Wrote, Moved, EventsOf;
    if Writes(a) { WriterSimulates(s, a); } else { OtherSimulates(s, a); }
  }

  lemma Nothing(l: L.Library)
    ensures L.Runs(l, [], l)
  {}

  // ---------------------------------------------------------------- runs

  lemma {:induction false} RunSimulates(s: State, acts: seq<Action>, t: State) returns (events: seq<L.Event>)
    requires Runs(s, acts, t, CODE) && FolderContent.ContentInv(s)
    ensures L.Runs(LibraryOf(s), events, LibraryOf(t))
    decreases |acts|
  {
    hide FolderContent.ContentInv, Enabled, Next, L.Runs, LibraryOf;
    if acts == [] {
      events := [];
      Nothing(LibraryOf(s));
    } else {
      var m := Next(s, acts[0]);
      FolderContent.Step(s, acts[0]);
      Simulates(s, acts[0]);
      var rest := RunSimulates(m, acts[1..], t);
      Joined(LibraryOf(s), EventsOf(s, acts[0]), LibraryOf(m), rest, LibraryOf(t));
      events := EventsOf(s, acts[0]) + rest;
    }
  }

  lemma StartsEmpty(e: Epoch)
    ensures LibraryOf(Initial(e)) == L.Initial(e)
  {
    assert ShelfOf(EmptyDb()) == L.Shelf(map[], map[]);
    assert LibraryOf(Initial(e)).history == L.Initial(e).history;
  }

  /** Whatever the folder does, a library has done, seen through documents, hashes and content alone. */
  lemma FolderRefinesLibrary(e: Epoch, acts: seq<Action>, s: State)
    requires Runs(Initial(e), acts, s, CODE)
    ensures exists events :: L.Runs(L.Initial(e), events, LibraryOf(s))
  {
    hide Runs, L.Runs;
    FolderContent.InitialOk(e);
    StartsEmpty(e);
    var events := RunSimulates(Initial(e), acts, s);
  }

  /** Under the collection premises a reader of the folder gets what a reader of the library gets. */
  lemma ReadsRefine(e: Epoch, acts: seq<Action>, s: State, name: Name, hash: Hash)
    requires Runs(Initial(e), acts, s, FolderGc.STRICT) && |hash| == HASH_LEN
    ensures Shaped(s) && L.Shaped(LibraryOf(s)) && ReadBlock(Now(s), name, hash) == L.Read(LibraryOf(s), name, hash)
  {
    hide Runs, ReadBlock;
    FolderGc.StoreRefinesContent(e, acts, s, name, hash);
    if name in Now(s).mn { HasIff(Now(s).mn[name], hash); }
  }
}
