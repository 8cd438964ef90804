/**
  Two-phase intake over all runs: only whole files are promoted, and exactly which steps can make a
  committed entry that is whole wait for blocks again, vanish or fall back.
 */
module FolderComplete {
  import opened Prelude
  import opened Files
  import opened VersionVectors
  import opened StoreKeys
  import opened FolderModel
  import opened FolderRuns

  predicate Whole(db: Db, name: Name) { name in db.mn && Files.Complete(db.mn[name].blocks) }

  /** Every hash of `wire` has a pointer somewhere in `prior`. */
  predicate Covers(prior: seq<Block>, wire: seq<WireBlock>) {
    forall i | 0 <= i < |wire| :: FirstPointed(prior, wire[i].hash).Some?
  }

  lemma {:induction false} PointedIff(blocks: seq<Block>, hash: Hash)
    ensures FirstPointed(blocks, hash).Some? <==> exists i ::
        0 <= i < |blocks| && blocks[i].hash == hash && blocks[i].HasPointer()
  {
    var r := FirstPointed(blocks, hash);
    if r.Some? {
      var i :| 0 <= i < |blocks| && blocks[i] == r.value;
    }
  }

  /** A put leaves a whole entry exactly when the entry it replaces has a pointer for every hash it brings. */
  lemma PutWholeIff(db: Db, f: WireInfo)
    ensures Whole(PutFile(db, f), f.name) <==> Covers(if f.name in db.mn then db.mn[f.name].blocks else [], f.blocks)
  {
    var t := PutFile(db, f);
    var prior := if f.name in db.mn then db.mn[f.name].blocks else [];
    var blocks := t.mn[f.name].blocks;
    assert |blocks| == |f.blocks|;
    forall i | 0 <= i < |f.blocks| ensures blocks[i].HasPointer() <==> FirstPointed(prior, f.blocks[i].hash).Some? {
      var b := FromWire(f).blocks[i];
      assert f.name in db.mn ==> blocks[i] == CarryOne(b, prior);
    }
    if Covers(prior, f.blocks) {
      forall i | 0 <= i < |blocks|
        ensures blocks[i].HasPointer()
      {
        assert FirstPointed(prior, f.blocks[i].hash).Some?;
      }
    }
    if Whole(t, f.name) {
      forall i | 0 <= i < |f.blocks|
        ensures FirstPointed(prior, f.blocks[i].hash).Some?
      {
        assert blocks[i].HasPointer();
      }
    }
  }

  /** An update whose blocks are still those of a whole entry when it is committed leaves it whole. */
  lemma MetadataWhole(db: Db, f: WireInfo)
    requires Whole(db, f.name) && SameBlocks(db.mn[f.name].blocks, f.blocks)
    ensures Whole(PutFile(db, f), f.name)
  {
    hide PutFile;
    var prior := db.mn[f.name].blocks;
    forall i | 0 <= i < |f.blocks| ensures FirstPointed(prior, f.blocks[i].hash).Some? {
      assert prior[i].HasPointer() && prior[i].hash == f.blocks[i].hash;
      PointedIff(prior, f.blocks[i].hash);
    }
    PutWholeIff(db, f);
  }

  lemma CommitWhole(db: Db, name: Name, stored: FileInfo)
    ensures Whole(Commit(db, name, stored), name) <==> Files.Complete(Carried(db, name, stored).blocks)
    ensures forall n | n != name :: Whole(Commit(db, name, stored), n) <==> Whole(db, n)
  {}

  /**
    `complete_file` promotes a staged file exactly when its version matches and nothing is missing,
    and then it is whole.
   */
  lemma PromotedWhole(db: Db, e: Epoch, name: Name, expected: Option<Vector>)
    ensures CompleteFile(db, e, name, expected).Promoted? <==>
              (e, name) in db.mi && db.mi[(e, name)].version == expected
              && forall i | 0 <= i < |db.mi[(e, name)].blocks| ::
                   db.mi[(e, name)].blocks[i].HasPointer()
                   || (name in db.mn && FirstPointed(db.mn[name].blocks, db.mi[(e, name)].blocks[i].hash).Some?)
    ensures CompleteFile(db, e, name, expected).Promoted? ==>
              var t := CompleteFile(db, e, name, expected).db;
              && Whole(t, name) && (e, name) !in t.mi && t.mn[name].version == expected
              && forall n | n != name :: Whole(t, n) <==> Whole(db, n)
  {
    if (e, name) in db.mi && db.mi[(e, name)].version == expected {
      var staged := db.mi[(e, name)];
      var blocks := Carried(db, name, staged).blocks;
      assert |blocks| == |staged.blocks|;
      forall i | 0 <= i < |blocks|
        ensures blocks[i].HasPointer() <==>
                staged.blocks[i].HasPointer()
                  || (name in db.mn && FirstPointed(db.mn[name].blocks, staged.blocks[i].hash).Some?)
      {
        assert name in db.mn ==> blocks[i] == CarryOne(staged.blocks[i], db.mn[name].blocks);
      }
      var mid := db.(mi := db.mi - {(e, name)});
      assert Carried(mid, name, staged) == Carried(db, name, staged);
      CommitWhole(mid, name, staged);
    }
  }

  lemma LateWhole(db: Db, e: Epoch, name: Name, n: Name)
    requires name !in db.mn && (e, name) in db.mi
    ensures Whole(PromoteStaged(db, e, name), n) <==>
              if n == name then Files.Complete(db.mi[(e, name)].blocks) else Whole(db, n)
  {
    hide Files.Complete;
    var mid, staged := db.(mi := db.mi - {(e, name)}), db.mi[(e, name)];
    assert Carried(mid, name, staged) == staged;
    CommitWhole(mid, name, staged);
  }

  /**
    The committed entry is read twice: once to check that nothing is missing, once to promote.  What is
    promoted is whole if and only if the entry was not pruned in between, or was not needed.
   */
  lemma PromotedWholeIff(s: State, a: Action)
    requires Shaped(s) && (a.Complete? || a.LateComplete?) && CanWrite(s, a, CODE)
    ensures Shaped(Wrote(s, a)) && (s.epoch, a.name) in Now(s).mi
    ensures Whole(Now(Wrote(s, a)), a.name) <==>
              a.Complete? || Files.Complete(Now(s).mi[(s.epoch, a.name)].blocks)
  {
    hide Whole, Files.Complete, PromoteStaged, Carry, SeqsIn, CanMove, Moved;
    match a
    case Complete(name, expected) => PromotedWhole(Now(s), s.epoch, name, expected);
    case LateComplete(name, _, _) => LateWhole(Now(s), s.epoch, name, name);
  }

  lemma LinkWhole(db: Db, slot: Slot, name: Name, hash: Hash, q: Option<nat>, d: Option<Bytes>, n: Name)
    requires HasSlot(db, slot, name) && (q.Some? || d.Some?) && Whole(db, n)
    ensures Whole(Link(db, slot, name, hash, q, d), n)
  {
    var t := Link(db, slot, name, hash, q, d);
    if slot.Committed? && n == name {
      forall i | 0 <= i < |t.mn[n].blocks|
        ensures t.mn[n].blocks[i].HasPointer()
      {
        assert db.mn[n].blocks[i].HasPointer();
      }
    }
  }

  lemma LinkedWhole(db: Db, e: Option<Epoch>, name: Name, hash: Hash, dir: Name, data: Bytes, q: nat, n: Name)
    requires CanLink(db, e, name, hash) && Whole(db, n)
    ensures Whole(StoreInline(db, e, name, hash, data), n)
    ensures Whole(ShareBlock(db, e, name, hash, dir, q), n)
    ensures Whole(NewBlock(db, e, name, hash, data, q), n)
  {
    hide Link, Dirname, Mentions, Files.Complete;
    var slot := FindEntry(db, e, name).value;
    LinkWhole(db, slot, name, hash, None, Some(data), n);
    var mb := if dir != Dirname(name) then db.mb[(Dirname(name), hash) := q] else db.mb;
    LinkWhole(db.(mb := mb, mr := db.mr + {(hash, name)}), slot, name, hash, Some(q), None, n);
    LinkWhole(db.(bd := db.bd[q := data], mb := db.mb[(Dirname(name), hash) := q], mr := db.mr + {(hash, name)}),
              slot, name, hash, Some(q), None, n);
  }

  // ---------------------------------------------------------------- runs

  /**
    The step leaves an entry without some block pointer, or without the entry: a put whose blocks the
    entry does not cover, a copy that neither brings nor finds them all, a pruned row, a crash to a
    state in which it was not whole.
   */
  predicate Disturbs(s: State, a: Action, n: Name)
    requires Enabled(s, a, CODE) && n in Now(s).mn
  {
    var prior := Now(s).mn[n].blocks;
    match a
    case Metadata(f) => f.name == n && !Covers(prior, f.blocks)
    case Resolve(f) => f.name == n && !Covers(prior, f.blocks)
    case Copy(c) => c.f.name == n && !Files.Complete(Carry(c.blocks, prior))
    case Drop(j, row) => row == FileRow(n) && Prunes(FilterOf(s, j), Now(s), row)
    case Crash(k, _) => !Whole(s.history[k], n)
    case _ => false
  }

  lemma CopyWhole(db: Db, f: WireInfo, blocks: seq<Block>, n: Name)
    requires Whole(db, n)
    ensures Whole(CommitCopy(db, f, blocks), n) <==> f.name != n || Files.Complete(Carry(blocks, db.mn[n].blocks))
  {
    hide Files.Complete, Carry, Separated;
    var refs := set p | p in Separated(blocks) :: (p.0, f.name);
    CommitWhole(db.(mr := db.mr + refs), f.name, FromWire(f).(blocks := blocks));
  }

  lemma PutWhole(db: Db, f: WireInfo, n: Name)
    requires Whole(db, n)
    ensures Whole(PutFile(db, f), n) <==> f.name != n || Covers(db.mn[n].blocks, f.blocks)
  {
    hide PutFile, Covers;
    if f.name == n { PutWholeIff(db, f); } else { OtherPut(db, f, n); }
  }

  lemma OtherPut(db: Db, f: WireInfo, n: Name)
    requires Whole(db, n) && f.name != n
    ensures Whole(PutFile(db, f), n)
  {
    CommitWhole(db, f.name, FromWire(f));
  }

  lemma PruneWhole(f: Filter, db: Db, row: Row, n: Name)
    requires Whole(db, n)
    ensures Whole(Pruned(f, db, row), n) <==> !(row == FileRow(n) && Prunes(f, db, row))
  {
    hide Files.Complete;
  }

  lemma PutsWhole(s: State, a: Action, n: Name)
    requires Shaped(s) && (a.Metadata? || a.Resolve? || a.Copy?) && CanWrite(s, a, CODE) && Whole(Now(s), n)
    ensures Shaped(Wrote(s, a)) && Present(s, n) && (Whole(Now(Wrote(s, a)), n) <==> !Disturbs(s, a, n))
  {
    hide Whole, PutFile, CommitCopy, Carry, Covers, Separated, SeqsIn, CanMove, Moved;
    var db := Now(s);
    WholeEntry(db, n);
    match a
    case Metadata(f) => PutWhole(db, f, n);
    case Resolve(f) => PutWhole(db, f, n);
    case Copy(c) => CopyWhole(db, c.f, c.blocks, n);
  }

  lemma OthersWhole(s: State, a: Action, n: Name)
    requires Shaped(s) && Writes(a) && !a.Metadata? && !a.Resolve? && !a.Copy? && CanWrite(s, a, CODE)
    requires Whole(Now(s), n)
    ensures Shaped(Wrote(s, a)) && Whole(Now(Wrote(s, a)), n)
  {
    hide Whole, CompleteFile, PromoteStaged, StoreInline, ShareBlock, NewBlock, CanLink, SeqsIn, Supplies, ValidName,
         ValidInfo, CanMove, Moved;
    var db, e := Now(s), Some(s.epoch);
    match a
    case Complete(name, expected) => PromotedWhole(db, s.epoch, name, expected);
    case Inline(name, hash, data) => LinkedWhole(db, e, name, hash, [], data, 0, n);
    case Fresh(name, hash, data, q) => LinkedWhole(db, e, name, hash, [], data, q, n);
    case Share(name, f) => LinkedWhole(db, e, name, f.hash, f.dir, [], f.seqno, n);
    case Restore(name, f) => RestoreWhole(db, name, f, n);
    case LateComplete(name, _, _) =>
      WholeEntry(db, n);
      LateWhole(db, s.epoch, name, n);
    case Stage(f) => SameWhole(db, StageFile(db, s.epoch, f), n);
    case GcInbox => SameWhole(db, FolderModel.GcInbox(db, s.epoch), n);
    case Peer(d, reached) => SameWhole(db, db.(md := db.md[d := reached]), n);
  }

  lemma WroteWhole(s: State, a: Action, n: Name)
    requires Shaped(s) && Writes(a) && CanWrite(s, a, CODE) && Whole(Now(s), n)
    ensures Shaped(Wrote(s, a)) && Present(s, n) && (Whole(Now(Wrote(s, a)), n) <==> !Disturbs(s, a, n))
  {
    hide Whole, CanWrite, CanMove, Wrote, Moved, Covers, Carry;
    WholeEntry(Now(s), n);
    if a.Metadata? || a.Resolve? || a.Copy? { PutsWhole(s, a, n); } else { OthersWhole(s, a, n); }
  }

  predicate Present(s: State, n: Name) { Shaped(s) && n in Now(s).mn }

  lemma WholeEntry(db: Db, n: Name)
    requires Whole(db, n)
    ensures n in db.mn
  {}

  lemma RestoreWhole(db: Db, name: Name, f: FileInfo, n: Name)
    requires name !in db.mn && Whole(db, n)
    ensures Whole(db.(mn := db.mn[name := f]), n)
  {}

  lemma SameWhole(db: Db, t: Db, n: Name)
    requires t.mn == db.mn
    ensures Whole(t, n) <==> Whole(db, n)
  {}

  /** Steps outside the writers that touch some database. */
  predicate Rest(a: Action) { a.Number? || a.Drop? || a.Install? || a.Crash? }

  lemma RestWhole(s: State, a: Action, n: Name)
    requires Shaped(s) && Rest(a) && CanMove(s, a, CODE) && Whole(Now(s), n)
    ensures Shaped(Moved(s, a)) && (Whole(Now(Moved(s, a)), n) <==> !Disturbs(s, a, n))
  {
    hide Whole, Pruned, WithoutRow, Covers, Take, Taken, JudgedInTime, CanWrite, Wrote;
    WholeEntry(Now(s), n);
    match a
    case Number(hash) => TakeWhole(s, hash, n);
    case Drop(j, row) => PruneWhole(FilterOf(s, j), Now(s), row, n);
    case Install(q) => LossWhole(Now(s), q, n);
    case Crash(k, _) =>
  }

  lemma LossWhole(db: Db, q: nat, n: Name)
    ensures Whole(WithoutRow(db, DataRow(q)), n) <==> Whole(db, n)
  {}

  lemma TakeWhole(s: State, hash: Hash, n: Name)
    requires Shaped(s)
    ensures var t := Take(s, hash);
            && Shaped(t) && s.flushed <= t.flushed && |s.history| <= |t.history|
            && (forall k | 0 <= k < |s.history| :: t.history[k] == s.history[k])
            && forall k | |s.history| - 1 <= k < |t.history| :: Whole(t.history[k], n) <==> Whole(Now(s), n)
  {}

  /** A step keeps a whole entry whole if and only if it does not disturb it. */
  lemma StepWhole(s: State, a: Action, n: Name)
    requires Enabled(s, a, CODE) && Whole(Now(s), n)
    ensures Shaped(Next(s, a)) && (Whole(Now(Next(s, a)), n) <==> !Disturbs(s, a, n))
  {
    hide Whole, CanWrite, CanMove, Wrote, Moved, Covers, Carry;
    if Writes(a) { WroteWhole(s, a, n); }
    else if Quiet(a) { QuietFrame(s, a); }
    else { RestWhole(s, a, n); }
  }

  /** No step of the run disturbs the entry. */
  ghost predicate Calm(s: State, acts: seq<Action>, n: Name)
    decreases |acts|
  {
    acts == [] ||
    (&& Enabled(s, acts[0], CODE) && n in Now(s).mn && !Disturbs(s, acts[0], n)
     && Calm(Next(s, acts[0]), acts[1..], n))
  }

  /** Once whole, an entry stays whole over any run that does not disturb it. */
  lemma {:induction false} StaysWhole(s: State, acts: seq<Action>, t: State, n: Name)
    requires Runs(s, acts, t, CODE) && Shaped(s) && Whole(Now(s), n) && Calm(s, acts, n)
    ensures Shaped(t) && Whole(Now(t), n)
    decreases |acts|
  {
    hide Whole, CanWrite, CanMove, Wrote, Moved, Disturbs;
    if acts != [] {
      StepWhole(s, acts[0], n);
      StaysWhole(Next(s, acts[0]), acts[1..], t, n);
    }
  }

  // ---------------------------------------------------------------- across crashes

  /** The entry is whole in every state that a crash can fall back to. */
  predicate Durable(s: State, n: Name) {
    Shaped(s) && forall k | s.flushed <= k < |s.history| :: Whole(s.history[k], n)
  }

  /** The same steps, but a crash does no harm and a row must not be pruned in any state it can lead to. */
  predicate Shakes(s: State, a: Action, n: Name)
    requires Enabled(s, a, CODE) && n in Now(s).mn
  {
    match a
    case Drop(j, row) =>
      row == FileRow(n) && exists k :: s.flushed <= k < |s.history| && Prunes(FilterOf(s, j), s.history[k], row)
    case Crash(_, _) => false
    case _ => Disturbs(s, a, n)
  }

  lemma WroteDurable(s: State, a: Action, n: Name)
    requires Enabled(s, a, CODE) && Writes(a) && Durable(s, n) && Whole(Now(s), n)
    ensures Present(s, n) && (Durable(Next(s, a), n) <==> !Shakes(s, a, n))
  {
    hide Whole, CanWrite, CanMove, Wrote, Moved, Disturbs;
    WholeEntry(Now(s), n);
    WroteWhole(s, a, n);
    WroteFrame(s, a);
    var t := Next(s, a);
    assert Shakes(s, a, n) == Disturbs(s, a, n);
    assert forall k | 0 <= k < |s.history| :: t.history[k] == t.history[..|s.history|][k] == s.history[k];
    if Durable(t, n) { assert Whole(t.history[|s.history|], n); }
  }

  lemma DropDurable(s: State, j: nat, row: Row, n: Name)
    requires Enabled(s, Drop(j, row), CODE) && Durable(s, n) && Present(s, n)
    ensures Durable(Next(s, Drop(j, row)), n) <==> !Shakes(s, Drop(j, row), n)
  {
    hide Whole, Pruned, Prunes;
    var t := Next(s, Drop(j, row));
    forall k | s.flushed <= k < |s.history|
      ensures Whole(t.history[k], n) <==> !(row == FileRow(n) && Prunes(FilterOf(s, j), s.history[k], row))
    {
      PruneWhole(FilterOf(s, j), s.history[k], row, n);
    }
  }

  lemma RestDurable(s: State, a: Action, n: Name)
    requires Enabled(s, a, CODE) && Rest(a) && !a.Drop? && Durable(s, n)
    ensures Durable(Next(s, a), n)
  {
    hide Whole, WithoutRow, Take, Taken, CanWrite, Wrote;
    var t := Next(s, a);
    match a
    case Number(hash) =>
      TakeWhole(s, hash, n);
      assert Whole(s.history[|s.history| - 1], n);
    case Install(q) =>
      forall k | s.flushed <= k < |s.history| ensures Whole(t.history[k], n) { LossWhole(s.history[k], q, n); }
    case Crash(k, _) => assert t.flushed == k && |t.history| == k + 1 && t.history[k] == s.history[k];
  }

  /** A step keeps an entry durable if and only if it does not shake it. */
  lemma StepDurable(s: State, a: Action, n: Name)
    requires Enabled(s, a, CODE) && Durable(s, n)
    ensures Present(s, n) && (Durable(Next(s, a), n) <==> !Shakes(s, a, n))
  {
    hide Whole, CanWrite, CanMove, Wrote, Moved, Disturbs;
    assert Whole(s.history[|s.history| - 1], n);
    WholeEntry(Now(s), n);
    if Writes(a) {
      WroteDurable(s, a, n);
    } else if a.Drop? {
      DropDurable(s, a.job, a.row, n);
    } else {
      if Quiet(a) { QuietFrame(s, a); } else { RestDurable(s, a, n); }
      Unshaken(s, a, n);
    }
  }

  lemma Unshaken(s: State, a: Action, n: Name)
    requires Enabled(s, a, CODE) && Present(s, n) && !Writes(a) && !a.Drop?
    ensures !Shakes(s, a, n)
  {}

  /** No step of the run shakes the entry. */
  ghost predicate Steady(s: State, acts: seq<Action>, n: Name)
    decreases |acts|
  {
    acts == [] ||
    (Enabled(s, acts[0], CODE) && Present(s, n) && !Shakes(s, acts[0], n) && Steady(Next(s, acts[0]), acts[1..], n))
  }

  /** An entry that is whole in every state a crash can leave stays so over any run, crashes included. */
  lemma {:induction false} StaysDurable(s: State, acts: seq<Action>, t: State, n: Name)
    requires Runs(s, acts, t, CODE) && Durable(s, n) && Steady(s, acts, n)
    ensures Durable(t, n)
    decreases |acts|
  {
    hide Durable, CanWrite, CanMove, Wrote, Moved, Shakes;
    if acts != [] {
      StepDurable(s, acts[0], n);
      StaysDurable(Next(s, acts[0]), acts[1..], t, n);
    }
  }

  /** Once an entry is whole and flushed, it is whole after any run, whatever crashes happen. */
  lemma FlushedSurvives(s: State, acts: seq<Action>, t: State, n: Name)
    requires Enabled(s, Flush, CODE) && Whole(Now(s), n)
    requires Runs(Next(s, Flush), acts, t, CODE) && Steady(Next(s, Flush), acts, n)
    ensures Durable(t, n) && Whole(Now(t), n)
  {
    hide Whole, Runs, Steady;
    StaysDurable(Next(s, Flush), acts, t, n);
  }
}
