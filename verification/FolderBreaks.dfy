/**
  Each premise of collection safety is needed: without it some run leaves a committed entry whose
  data is gone.  And a metadata update that is committed late undoes a whole entry.
 */
module FolderBreaks {
  import opened Prelude
  import opened Files
  import opened VersionVectors
  import opened StoreKeys
  import opened FolderModel
  import opened FolderRuns
  import opened FolderGc
  import FolderComplete

  ghost predicate Reaches(s: State, t: State, pre: Premises) { exists acts :: Runs(s, acts, t, pre) }

  lemma {:induction false} RunsThen(s: State, acts: seq<Action>, t: State, a: Action, pre: Premises)
    requires Runs(s, acts, t, pre) && Enabled(t, a, pre)
    ensures Enabled(t, a, CODE) && Runs(s, acts + [a], Next(t, a), pre)
    decreases |acts|
  {
    hide Enabled, Next;
    Weaken(t, a, pre);
    if acts == [] {
      assert ([a])[1..] == [];
      assert Runs(Next(s, a), [], Next(s, a), pre);
    } else {
      Weaken(s, acts[0], pre);
      assert (acts + [a])[0] == acts[0] && (acts + [a])[1..] == acts[1..] + [a];
      RunsThen(Next(s, acts[0]), acts[1..], t, a, pre);
    }
  }

  lemma Then(s: State, t: State, a: Action, pre: Premises)
    requires Reaches(s, t, pre) && Enabled(t, a, pre)
    ensures Enabled(t, a, CODE) && Reaches(s, Next(t, a), pre)
  {
    hide Enabled, Next;
    var acts :| Runs(s, acts, t, pre);
    RunsThen(s, acts, t, a, pre);
  }

  // ---------------------------------------------------------------- the files in the runs

  const A: Name := [97]
  const B: Name := [98]
  const NESTED: Name := [100, SLASH, 97]

  function Hash0(): Hash { seq(HASH_LEN, _ => 0) }
  function Data0(): Bytes { seq(INLINE_BLOCK_THRESHOLD, _ => 0) }

  function At(k: nat): Option<Vector> { Some([Counter(1, k)]) }

  /** A file of one block. */
  function File(name: Name): WireInfo {
    WireInfo(name, At(1), false, INLINE_BLOCK_THRESHOLD, [WireBlock(0, INLINE_BLOCK_THRESHOLD, Hash0())])
  }

  /** The same file emptied, two versions on. */
  function Emptied(name: Name): WireInfo { WireInfo(name, At(3), false, 0, []) }

  /** And the version between: the same blocks. */
  function Touched(name: Name): WireInfo { File(name).(version := At(2)) }

  lemma SplitOne(c: Byte)
    requires c != SLASH
    ensures Split([c]) == [[c]]
  {
    assert [c][1..] == [] && Split([]) == [[]];
    assert [c] + [] == [c];
  }

  lemma Names(e: Epoch)
    ensures ValidName(A) && ValidName(B) && ValidName(NESTED)
    ensures Dirname(A) == [] && Dirname(B) == [] && Dirname(NESTED) == [100]
    ensures InboxCovers(e, A) && InboxCovers(e, B) && !InboxCovers(e, NESTED)
  {
    hide InboxCovers;
    SplitOne(97);
    SplitOne(98);
    assert NESTED[1..][1..] == A;
    assert Split(NESTED[1..]) == [[]] + Split(A);
    assert [100] + [] == [100] && Split(NESTED[1..])[0] == [] && Split(NESTED[1..])[1..] == Split(A);
    assert Split(NESTED) == [[100]] + Split(A);
    assert Dirname([]) == [];
    assert A[..0] == [] && B[..0] == [];
    assert NESTED[..2][..1] == [100] && Dirname(NESTED) == Dirname(NESTED[..2]) == [100];
    forall n | n == A || n == B || n == NESTED ensures ValidName(n) && Tidy(n) { ValidIsTidy(n); }
    InboxScan(e, A);
    InboxScan(e, B);
    InboxScan(e, NESTED);
  }

  lemma FileValid(name: Name)
    ensures ValidInfo(File(name))
  {
    var b := [WireBlock(0, INLINE_BLOCK_THRESHOLD, Hash0())];
    assert File(name).blocks == b && |Hash0()| == HASH_LEN;
    assert b[..0] == [] && Covered(b[..0]) == 0 && Contiguous(b[..0]);
    assert Covered(b) == INLINE_BLOCK_THRESHOLD && Contiguous(b);
  }

  /** One block of hash `Hash0`, pointing at `q`. */
  predicate Entry1(f: FileInfo, q: Option<nat>) {
    && f.version == At(1) && |f.blocks| == 1 && f.blocks[0].hash == Hash0() && f.blocks[0].blockseq == q
    && f.blocks[0].inlineData == None && f.blocks[0].size == INLINE_BLOCK_THRESHOLD
  }

  /** No job, nothing to be recorded or judged. */
  predicate AtRest(s: State) { s.jobs == map[] && s.nextJob == 1 && s.pending == {} && s.doomed == {} }

  /** A file staged in `e` with its block stored under 1024. */
  predicate Stored(s: State, e: Epoch, name: Name) {
    && Shaped(s) && s.epoch == e && AtRest(s)
    && Now(s).mn == map[] && Now(s).mi.Keys == {(e, name)} && Entry1(Now(s).mi[(e, name)], Some(1024))
    && Now(s).bd.Keys == {1024} && Now(s).md == map[]
    && Now(s).mb == map[(Dirname(name), Hash0()) := 1024] && Now(s).mr == {(Hash0(), name)}
    && s.supplied == map[Hash0() := Data0()] && Now(s).maxSequence == 0
  }

  /** A file staged alone. */
  predicate Begun(s: State, e: Epoch, name: Name) {
    && Shaped(s) && s.epoch == e && AtRest(s) && s.range == Range(0, 0) && s.supplied == map[]
    && s.taken == map[] && Now(s) == EmptyDb().(mi := map[(e, name) := FromWire(File(name))])
  }

  lemma StageOne(e: Epoch, name: Name, pre: Premises) returns (s: State)
    requires ValidName(name)
    ensures Reaches(Initial(e), s, pre) && Begun(s, e, name)
  {
    hide InboxCovers, ValidName, ValidInfo;
    assert Runs(Initial(e), [], Initial(e), pre);
    FileValid(name);
    Then(Initial(e), Initial(e), Stage(File(name)), pre);
    s := Next(Initial(e), Stage(File(name)));
  }

  lemma StoreOne(e: Epoch, name: Name, pre: Premises) returns (s: State)
    requires ValidName(name)
    ensures Reaches(Initial(e), s, pre) && Stored(s, e, name)
  {
    hide Reaches, InboxCovers, Dirname, ValidName, NewBlock;
    s := StageOne(e, name, pre);
    Then(Initial(e), s, Number(Hash0()), pre);
    s := Next(s, Number(Hash0()));
    assert 1024 in s.taken;
    s := WriteOne(e, s, name, pre);
    Then(Initial(e), s, Learn(Hash0(), 1024), pre);
    s := Next(s, Learn(Hash0(), 1024));
  }

  lemma WriteOne(e: Epoch, s: State, name: Name, pre: Premises) returns (t: State)
    requires Reaches(Initial(e), s, pre) && Shaped(s) && s.epoch == e && AtRest(s) && s.supplied == map[]
    requires s.taken == map[1024 := Hash0()]
    requires Now(s) == EmptyDb().(mi := map[(e, name) := FromWire(File(name))], nextBlockseq := Now(s).nextBlockseq)
    ensures Reaches(Initial(e), t, pre) && t.pending == {(Hash0(), 1024)} && Stored(t.(pending := {}), e, name)
  {
    hide Reaches, InboxCovers, Dirname;
    var f := Now(s).mi[(e, name)];
    assert f.blocks[0].hash == Hash0() && Mentions(f.blocks, Hash0());
    var a := Fresh(name, Hash0(), Data0(), 1024);
    Then(Initial(e), s, a, pre);
    t := Next(s, a);
  }

  // ---------------------------------------------------------------- the collector's part

  /** The only job is ready, goes through row 1024 and knows nothing. */
  predicate Blind(s: State, hashes: set<Hash>) {
    && 1024 in Inputs(s, 1) && s.jobs.Keys == {1} && s.jobs[1].stage.Ready?
    && s.jobs[1] == Job(hashes, {}, Ready(s.jobs[1].stage.at, None))
  }

  /** A job that takes its snapshot now finds all that the premises ask for. */
  predicate Open(s: State, pre: Premises)
    requires Shaped(s)
  {
    && (pre.scanSees ==> LiveSeqs(Now(s), s.epoch) == {})
    && (pre.crashSees ==> forall k | s.flushed <= k < |s.history| - 1 :: FileSeqs(s.history[k]) == {})
  }

  /** A job scans a database in which it finds no reference. */
  lemma ScanNothing(s0: State, s: State, pre: Premises) returns (t: State)
    requires Reaches(s0, s, pre) && Shaped(s) && s.jobs == map[] && s.nextJob == 1 && Now(s).md == map[]
    requires ScanSeqs(Now(s), s.epoch) == {} && ScanHashes(Now(s), s.epoch) == {} && Open(s, pre)
    requires 1024 in s.history[s.flushed].bd
    ensures Reaches(s0, t, pre) && t == s.(jobs := t.jobs, nextJob := 2, inputs := t.inputs) && Blind(t, {})
  {
    hide Reaches, ScanSeqs, ScanHashes, LiveSeqs, FileSeqs;
    var s2 := TakeSnapshot(s0, s, pre);
    Then(s0, s2, Scan(1), pre);
    t := Next(s2, Scan(1));
  }

  lemma TakeSnapshot(s0: State, s: State, pre: Premises) returns (t: State)
    requires Reaches(s0, s, pre) && Shaped(s) && s.jobs == map[] && s.nextJob == 1 && Open(s, pre)
    ensures Reaches(s0, t, pre) && Inputs(t, 1) == s.history[s.flushed].bd.Keys
    ensures t == s.(jobs := map[1 := Job({}, {}, Snapped(s.flushed, Now(s)))], nextJob := 2, inputs := t.inputs)
  {
    hide Reaches, LiveSeqs, FileSeqs;
    Then(s0, s, Register, pre);
    t := Snap(s0, Next(s, Register), pre);
  }

  lemma Snap(s0: State, s: State, pre: Premises) returns (t: State)
    requires Reaches(s0, s, pre) && Shaped(s) && s.jobs == map[1 := Job({}, {}, Registered)] && Open(s, pre)
    ensures Reaches(s0, t, pre) && t == s.(jobs := map[1 := Job({}, {}, Snapped(s.flushed, Now(s)))])
  {
    hide Reaches, LiveSeqs, FileSeqs, Visible;
    Then(s0, s, Snapshot(1), pre);
    t := Next(s, Snapshot(1));
  }

  lemma DropIt(s0: State, s: State, pre: Premises, hashes: set<Hash>) returns (t: State)
    requires Reaches(s0, s, pre) && Shaped(s) && Blind(s, hashes)
    requires pre.recorded ==> 1024 !in PendingSeqs(s)
    ensures Reaches(s0, t, pre) && t == s.(history := t.history, cut := t.cut) && |t.history| == |s.history|
    ensures forall k | 0 <= k < |s.history| :: t.history[k] == s.history[k].(bd := s.history[k].bd - {1024})
  {
    hide Reaches, PendingSeqs;
    Then(s0, s, Drop(1, DataRow(1024)), pre);
    t := Next(s, Drop(1, DataRow(1024)));
  }

  /** Promoting a staged file whose data is gone leaves a dangling entry. */
  lemma Promote(s0: State, s: State, pre: Premises, name: Name) returns (t: State)
    requires Reaches(s0, s, pre) && Shaped(s) && name !in Now(s).mn && 1024 !in Now(s).bd
    requires (s.epoch, name) in Now(s).mi && Entry1(Now(s).mi[(s.epoch, name)], Some(1024))
    ensures Reaches(s0, t, pre) && Shaped(t) && !Kept(Now(t))
  {
    hide Reaches;
    Then(s0, s, Complete(name, At(1)), pre);
    t := Next(s, Complete(name, At(1)));
    var f := Now(t).mn[name];
    assert f.blocks[0] in f.blocks && f.blocks[0].blockseq == Some(1024);
    assert 1024 in SeqsOf(f);
  }

  // ---------------------------------------------------------------- the runs

  /** A staged file in a directory: the scan does not see it. */
  lemma NestedNameBreaks(pre: Premises)
    requires !pre.scanSees
    ensures !SafeUnder(pre)
  {
    hide Reaches, InboxCovers, ScanHashes, Kept;
    var e: Epoch := 0;
    Names(e);
    var s := StoreOne(e, NESTED, pre);
    s := FlushAll(Initial(e), s, pre);
    assert ScanSeqs(Now(s), e) == {};
    ScanNoHashes(Now(s), e);
    s := ScanNothing(Initial(e), s, pre);
    s := DropIt(Initial(e), s, pre, {});
    s := Promote(Initial(e), s, pre, NESTED);
    Unsafe(e, s, pre);
  }

  lemma HashHasSeq(db: Db, e: Epoch, h: Hash)
    requires h in ScanHashes(db, e)
    ensures ScanSeqs(db, e) != {}
  {
    if n :| n in db.mn && h in HashesOf(db.mn[n]) {
      var b :| b in db.mn[n].blocks && b.blockseq.Some? && b.hash == h;
      assert b.blockseq.value in SeqsOf(db.mn[n]) && b.blockseq.value in ScanSeqs(db, e);
    } else {
      var k :| k in db.mi && k.0 == e && InboxCovers(e, k.1) && h in HashesOf(db.mi[k]);
      var b :| b in db.mi[k].blocks && b.blockseq.Some? && b.hash == h;
      assert b.blockseq.value in SeqsOf(db.mi[k]) && b.blockseq.value in ScanSeqs(db, e);
    }
  }

  lemma ScanNoHashes(db: Db, e: Epoch)
    requires ScanSeqs(db, e) == {}
    ensures ScanHashes(db, e) == {}
  {
    hide ScanHashes, ScanSeqs;
    if ScanHashes(db, e) != {} {
      var h :| h in ScanHashes(db, e);
      HashHasSeq(db, e, h);
    }
  }

  /** A file committed whole, alone. */
  predicate Settled(s: State, e: Epoch) {
    && Shaped(s) && s.epoch == e && AtRest(s)
    && Now(s).mn.Keys == {A} && Entry1(Now(s).mn[A], Some(1024)) && Now(s).mi == map[] && Now(s).md == map[]
    && Now(s).bd.Keys == {1024} && Now(s).mb == map[([], Hash0()) := 1024] && Now(s).mr == {(Hash0(), A)}
    && s.supplied == map[Hash0() := Data0()] && Now(s).maxSequence == 1
  }

  lemma CommitOne(e: Epoch, pre: Premises) returns (s: State)
    ensures Reaches(Initial(e), s, pre) && Settled(s, e)
  {
    hide Reaches, InboxCovers, ValidName;
    Names(e);
    var s1 := StoreOne(e, A, pre);
    Then(Initial(e), s1, Complete(A, At(1)), pre);
    s := Next(s1, Complete(A, At(1)));
  }

  /** The entry is emptied afterwards; its block is garbage. */
  predicate Orphaned(s: State, e: Epoch) {
    && Shaped(s) && s.epoch == e && AtRest(s)
    && Now(s).mn.Keys == {A} && Now(s).mn[A].blocks == [] && Now(s).mi == map[] && Now(s).md == map[]
    && Now(s).bd.Keys == {1024} && Now(s).mb == map[([], Hash0()) := 1024] && Now(s).mr == {(Hash0(), A)}
    && s.supplied == map[Hash0() := Data0()]
  }

  lemma Empty(e: Epoch, s: State, pre: Premises) returns (t: State)
    requires Reaches(Initial(e), s, pre) && Settled(s, e)
    ensures Reaches(Initial(e), t, pre) && Orphaned(t, e) && t.calls == s.calls
    ensures t.history == s.history + [Now(t)] && t.flushed == s.flushed
  {
    hide Reaches;
    Then(Initial(e), s, Resolve(Emptied(A)), pre);
    t := Next(s, Resolve(Emptied(A)));
  }

  lemma NothingFound(s: State, e: Epoch)
    requires Orphaned(s, e)
    ensures LiveSeqs(Now(s), e) == {} && ScanSeqs(Now(s), e) == {} && ScanHashes(Now(s), e) == {}
  {
    hide InboxCovers;
    assert SeqsOf(Now(s).mn[A]) == {};
    assert FileSeqs(Now(s)) == {};
    assert LiveSeqs(Now(s), e) == {};
    assert ScanSeqs(Now(s), e) == {};
    ScanNoHashes(Now(s), e);
  }

  lemma FlushAll(s0: State, s: State, pre: Premises) returns (t: State)
    requires Reaches(s0, s, pre) && Shaped(s)
    ensures Reaches(s0, t, pre) && t == s.(flushed := |s.history| - 1)
  {
    hide Reaches;
    Then(s0, s, Flush, pre);
    t := Next(s, Flush);
  }

  /** The scan sees an unflushed batch that the crash then undoes. */
  lemma UnflushedScanBreaks(pre: Premises)
    requires !pre.crashSees
    ensures !SafeUnder(pre)
  {
    hide Reaches, LiveSeqs, ScanSeqs, ScanHashes, InboxCovers, Kept, Entry1;
    var e: Epoch := 0;
    var s := CommitOne(e, pre);
    s := FlushAll(Initial(e), s, pre);
    var k, h := s.flushed, Now(s);
    s := Empty(e, s, pre);
    assert s.history[k] == h;
    NothingFound(s, e);
    s := ScanNothing(Initial(e), s, pre);
    s := DropIt(Initial(e), s, pre, {});
    RollBack(e, s, k, pre);
  }

  lemma RollBack(e: Epoch, s: State, k: nat, pre: Premises)
    requires Reaches(Initial(e), s, pre) && Shaped(s) && k == s.flushed && s.history[k].mi == map[]
    requires A in s.history[k].mn && Entry1(s.history[k].mn[A], Some(1024)) && 1024 !in s.history[k].bd
    ensures !SafeUnder(pre)
  {
    hide Reaches;
    var f := s.history[k].mn[A];
    assert f.blocks[0] in f.blocks && 1024 in SeqsOf(f);
    Then(Initial(e), s, Crash(k, e), pre);
    Unsafe(e, Next(s, Crash(k, e)), pre);
  }

  /** An epoch comes back with staged files that another epoch did not protect. */
  lemma OldEpochBreaks(pre: Premises)
    requires !pre.intact
    ensures !SafeUnder(pre)
  {
    hide Reaches, ScanHashes, InboxCovers, Kept, Entry1;
    var e: Epoch := 0;
    Names(e);
    var s := StoreOne(e, A, pre);
    s := FlushAll(Initial(e), s, pre);
    s := Restart(e, s, 1, pre);
    assert LiveSeqs(Now(s), 1) == {} && ScanSeqs(Now(s), 1) == {};
    ScanNoHashes(Now(s), 1);
    s := ScanNothing(Initial(e), s, pre);
    s := DropIt(Initial(e), s, pre, {});
    s := Restart(e, s, e, pre);
    s := Promote(Initial(e), s, pre, A);
    Unsafe(e, s, pre);
  }

  lemma Restart(e: Epoch, s: State, next: Epoch, pre: Premises) returns (t: State)
    requires Reaches(Initial(e), s, pre) && Shaped(s) && s.flushed == |s.history| - 1 && !pre.intact
    ensures Reaches(Initial(e), t, pre) && Shaped(t) && Now(t) == Now(s) && t.epoch == next && t.jobs == map[]
    ensures t.nextJob == s.nextJob && t.flushed == |t.history| - 1 && t.pending == {} && t.doomed == {}
  {
    hide Reaches;
    var a := Crash(s.flushed, next);
    Then(Initial(e), s, a, pre);
    t := Next(s, a);
  }

  /** The job's filter takes the hash for live by accident, and not its number. */
  lemma Collide(e: Epoch, pre: Premises) returns (s: State)
    ensures Reaches(Initial(e), s, pre) && Shaped(s) && Blind(s, {Hash0()})
    ensures Orphaned(s.(jobs := map[], nextJob := 1, doomed := {}), e)
    ensures s.doomed == {} && s.pending == {} && 1024 in Now(s).bd
  {
    hide Reaches, LiveSeqs, ScanSeqs, ScanHashes, Entry1;
    s := CommitOne(e, pre);
    s := Empty(e, s, pre);
    s := FlushAll(Initial(e), s, pre);
    NothingFound(s, e);
    s := ScanNothing(Initial(e), s, pre);
    s := Confuse(e, s, pre);
  }

  lemma Confuse(e: Epoch, s: State, pre: Premises) returns (t: State)
    requires Reaches(Initial(e), s, pre) && Shaped(s) && Blind(s, {})
    ensures Reaches(Initial(e), t, pre) && t == s.(jobs := t.jobs) && Blind(t, {Hash0()})
  {
    hide Reaches;
    Then(Initial(e), s, Noise(1, {Hash0()}, {}), pre);
    t := Next(s, Noise(1, {Hash0()}, {}));
  }

  /** A second file is staged and shares the orphan. */
  predicate Sharing(s: State, e: Epoch) {
    && Shaped(s) && s.epoch == e && (e, B) in Now(s).mi && Entry1(Now(s).mi[(e, B)], Some(1024)) && B !in Now(s).mn
  }

  lemma StageB(e: Epoch, s: State, pre: Premises) returns (t: State)
    requires Reaches(Initial(e), s, pre) && Shaped(s) && s.epoch == e && Now(s).mi == map[]
    ensures Reaches(Initial(e), t, pre) && Shaped(t) && t == s.(history := t.history)
    ensures Now(t) == Now(s).(mi := map[(e, B) := FromWire(File(B))])
  {
    hide Reaches, InboxCovers, ValidName, ValidInfo;
    Names(e);
    FileValid(B);
    Then(Initial(e), s, Stage(File(B)), pre);
    t := Next(s, Stage(File(B)));
  }

  lemma Linked(db: Db, e: Epoch)
    requires db.mi == map[(e, B) := FromWire(File(B))]
    ensures CanLink(db, Some(e), B, Hash0())
    ensures var t := ShareBlock(db, Some(e), B, Hash0(), [], 1024);
            t.mn == db.mn && t.bd == db.bd && (e, B) in t.mi && Entry1(t.mi[(e, B)], Some(1024))
  {
    hide Dirname;
    var f := db.mi[(e, B)];
    assert f.blocks[0].hash == Hash0() && Mentions(f.blocks, Hash0());
  }

  const SEEN: Sighting := Sighting(Hash0(), [], 1024)

  /** A lookup finds the block of the orphan: jobs and reference first, then pointer and data. */
  lemma See(e: Epoch, s: State, pre: Premises) returns (t: State)
    requires Reaches(Initial(e), s, pre) && Shaped(s) && BlockSafe(s.jobs, Hash0()) && Holds(Now(s), Hash0(), [], 1024)
    ensures Reaches(Initial(e), t, pre) && t == s.(calls := t.calls) && SEEN in t.calls.found
  {
    hide Reaches, BlockSafe, Dirname;
    var c := s.calls;
    Then(Initial(e), s, Clear(Hash0()), pre);
    t := s.(calls := c.(cleared := c.cleared + {Hash0()}));
    assert Next(s, Clear(Hash0())) == t && Refers(Now(t), Hash0(), []);
    hide Refers;
    Then(Initial(e), t, Refer(Hash0(), []), pre);
    t := Next(t, Refer(Hash0(), []));
    t := SeeData(e, t, pre);
  }

  lemma SeeData(e: Epoch, s: State, pre: Premises) returns (t: State)
    requires Reaches(Initial(e), s, pre) && Shaped(s) && (Hash0(), []) in s.calls.referred
    requires ([], Hash0()) in Now(s).mb && Now(s).mb[([], Hash0())] == 1024 && 1024 in Now(s).bd
    ensures Reaches(Initial(e), t, pre) && t == s.(calls := t.calls) && SEEN in t.calls.found
  {
    hide Reaches;
    Then(Initial(e), s, Spot(SEEN), pre);
    t := Next(s, Spot(SEEN));
    Then(Initial(e), t, Lookup(SEEN), pre);
    t := Next(t, Lookup(SEEN));
  }

  lemma OrphanHeld(s: State, e: Epoch)
    requires Orphaned(s, e)
    ensures Holds(Now(s), Hash0(), [], 1024)
  {
    hide InboxCovers, ValidName;
    Names(e);
    assert (Hash0(), A) in Now(s).mr;
  }

  lemma UseSighting(e: Epoch, s: State, pre: Premises) returns (t: State)
    requires Reaches(Initial(e), s, pre) && Shaped(s) && s.epoch == e && SEEN in s.calls.found
    requires Now(s).mi == map[(e, B) := FromWire(File(B))] && B !in Now(s).mn
    requires pre.freshLookup ==> 1024 in Now(s).bd
    requires pre.spared ==> 1024 !in s.doomed
    ensures Reaches(Initial(e), t, pre) && Sharing(t, e) && Now(t).bd == Now(s).bd
    ensures t == s.(history := t.history, pending := t.pending) && t.pending == s.pending + {(Hash0(), 1024)}
  {
    hide Reaches, ShareBlock, CanLink, Entry1;
    Linked(Now(s), e);
    Then(Initial(e), s, Share(B, SEEN), pre);
    t := Next(s, Share(B, SEEN));
  }

  /** While jobs take the hash for live, a second file is staged and linked to the orphan's block. */
  lemma ShareOrphan(e: Epoch, s: State, pre: Premises) returns (t: State)
    requires Reaches(Initial(e), s, pre) && Orphaned(s.(jobs := map[], nextJob := 1, doomed := {}), e)
    requires BlockSafe(s.jobs, Hash0()) && (pre.spared ==> 1024 !in s.doomed)
    ensures Reaches(Initial(e), t, pre) && Sharing(t, e)
    ensures t.jobs == s.jobs && t.inputs == s.inputs && t.doomed == s.doomed && t.pending == {(Hash0(), 1024)}
  {
    hide Reaches, Entry1, BlockSafe, Holds;
    OrphanHeld(s.(jobs := map[], nextJob := 1, doomed := {}), e);
    t := See(e, s, pre);
    t := StageB(e, t, pre);
    t := UseSighting(e, t, pre);
  }

  /** A link that is not recorded yet does not protect the row. */
  lemma LateRecordBreaks(pre: Premises)
    requires !pre.recorded
    ensures !SafeUnder(pre)
  {
    hide Reaches, Kept, Entry1, Orphaned;
    var e: Epoch := 0;
    var s := Collide(e, pre);
    s := ShareOrphan(e, s, pre);
    s := DropIt(Initial(e), s, pre, {Hash0()});
    s := Promote(Initial(e), s, pre, B);
    Unsafe(e, s, pre);
  }

  /** A row that was judged before the link still vanishes, although the link is recorded at once. */
  lemma LateDropBreaks(pre: Premises)
    requires !pre.spared
    ensures !SafeUnder(pre)
  {
    hide Reaches, Kept, Entry1, Orphaned;
    var e: Epoch := 0;
    var s := Collide(e, pre);
    s := Judge(e, s, pre);
    s := ShareOrphan(e, s, pre);
    s := RecordIt(e, s, pre);
    s := Vanish(e, s, pre);
    s := Promote(Initial(e), s, pre, B);
    Unsafe(e, s, pre);
  }

  lemma Judge(e: Epoch, s: State, pre: Premises) returns (t: State)
    requires Reaches(Initial(e), s, pre) && Shaped(s) && Blind(s, {Hash0()}) && s.pending == {} && 1024 in Now(s).bd
    ensures Reaches(Initial(e), t, pre) && t == s.(doomed := s.doomed + {1024})
  {
    hide Reaches;
    Then(Initial(e), s, Decide(1, 1024), pre);
    t := Next(s, Decide(1, 1024));
  }

  lemma RecordIt(e: Epoch, s: State, pre: Premises) returns (t: State)
    requires Reaches(Initial(e), s, pre) && Shaped(s) && (Hash0(), 1024) in s.pending
    ensures Reaches(Initial(e), t, pre) && t.history == s.history && t.flushed == s.flushed && t.epoch == s.epoch
    ensures t.doomed == s.doomed
  {
    hide Reaches, Record;
    Then(Initial(e), s, Learn(Hash0(), 1024), pre);
    t := Next(s, Learn(Hash0(), 1024));
  }

  lemma Vanish(e: Epoch, s: State, pre: Premises) returns (t: State)
    requires Reaches(Initial(e), s, pre) && Shaped(s) && 1024 in s.doomed
    ensures Reaches(Initial(e), t, pre) && Shaped(t) && t.epoch == s.epoch
    ensures Now(t) == Now(s).(bd := Now(s).bd - {1024})
  {
    hide Reaches;
    Then(Initial(e), s, Install(1024), pre);
    t := Next(s, Install(1024));
  }

  lemma Unsafe(e: Epoch, s: State, pre: Premises)
    requires Reaches(Initial(e), s, pre) && Shaped(s) && !Kept(Now(s))
    ensures !SafeUnder(pre)
  {
    hide Runs, Kept;
    var acts :| Runs(Initial(e), acts, s, pre);
  }

  /** The job scans, knows nothing and drops the orphan's row. */
  lemma DropOrphan(e: Epoch, s: State, pre: Premises) returns (t: State)
    requires Reaches(Initial(e), s, pre) && Orphaned(s, e) && s.flushed == |s.history| - 1
    ensures Reaches(Initial(e), t, pre) && Shaped(t) && t.epoch == e && t.calls == s.calls && t.doomed == {}
    ensures Now(t) == Now(s).(bd := Now(s).bd - {1024})
  {
    hide Reaches, LiveSeqs, ScanSeqs, ScanHashes, FileSeqs;
    NothingFound(s, e);
    t := ScanNothing(Initial(e), s, pre);
    t := DropIt(Initial(e), t, pre, {});
  }

  /** What a lookup found is dropped before it is linked. */
  lemma StaleLookupBreaks(pre: Premises)
    requires !pre.freshLookup
    ensures !SafeUnder(pre)
  {
    hide Reaches, Kept, Entry1, Holds;
    var e: Epoch := 0;
    var s := CommitOne(e, pre);
    s := Empty(e, s, pre);
    s := FlushAll(Initial(e), s, pre);
    OrphanHeld(s, e);
    s := See(e, s, pre);
    s := DropOrphan(e, s, pre);
    s := StageB(e, s, pre);
    s := UseSighting(e, s, pre);
    s := Promote(Initial(e), s, pre, B);
    Unsafe(e, s, pre);
  }

  /** A conflict copy reads what it takes over. */
  lemma Capture(e: Epoch, s: State, pre: Premises) returns (t: State, c: Captured)
    requires Reaches(Initial(e), s, pre) && Settled(s, e)
    ensures Reaches(Initial(e), t, pre) && t == s.(calls := t.calls) && c in t.calls.copies
    ensures c.f == File(B) && |c.blocks| == 1 && c.blocks[0].blockseq == Some(1024)
  {
    hide Reaches;
    Then(Initial(e), s, CopyRead(File(B), A), pre);
    t := Next(s, CopyRead(File(B), A));
    c := Captured(File(B), CopyBlocks(Now(s), File(B), A));
  }

  /** The winner is committed, the collector runs, and only then is the copy committed. */
  lemma StaleCopyBreaks(pre: Premises)
    requires !pre.freshCopy
    ensures !SafeUnder(pre)
  {
    hide Reaches, Kept, Entry1;
    var e: Epoch := 0;
    var s := CommitOne(e, pre);
    var c: Captured;
    s, c := Capture(e, s, pre);
    s := Empty(e, s, pre);
    s := FlushAll(Initial(e), s, pre);
    s := DropOrphan(e, s, pre);
    CommitCaptured(e, s, c, pre);
  }

  lemma CommitCaptured(e: Epoch, s: State, c: Captured, pre: Premises)
    requires Reaches(Initial(e), s, pre) && Shaped(s) && c in s.calls.copies && !pre.freshCopy && s.doomed == {}
    requires |c.blocks| == 1 && c.blocks[0].blockseq == Some(1024) && 1024 !in Now(s).bd
    ensures !SafeUnder(pre)
  {
    hide Reaches, Separated;
    Then(Initial(e), s, Copy(c), pre);
    var t := Next(s, Copy(c));
    var f := Now(t).mn[c.f.name];
    assert f.blocks[0] == c.blocks[0] && f.blocks[0] in f.blocks;
    assert 1024 in SeqsOf(f);
    Unsafe(e, t, pre);
  }

  /** The file deleted, its blocks still listed. */
  function Buried(name: Name): WireInfo { Touched(name).(deleted := true) }

  /** The same blocks once more, after that. */
  function Again(name: Name): WireInfo { File(name).(version := At(3)) }

  /** The deleted file, staged files without numbers, a peer far ahead, and a call that has read the file. */
  predicate Entombed(s: State, e: Epoch, f: FileInfo) {
    && Shaped(s) && s.epoch == e && s.pending == {} && s.doomed == {} && s.flushed == |s.history| - 1
    && Now(s).mn == map[A := f] && Now(s).md == map[0 := 10]
    && (forall x | x in Now(s).mi :: SeqsOf(Now(s).mi[x]) == {})
    && f.deleted && f.sequence == 2 && SeqsOf(f) == {1024} && (A, f) in s.calls.peeked && 1024 in Now(s).bd
  }

  lemma Bury(e: Epoch, s: State, pre: Premises) returns (t: State)
    requires Reaches(Initial(e), s, pre) && Settled(s, e)
    ensures Reaches(Initial(e), t, pre) && Shaped(t) && t.epoch == e && AtRest(t) && A in Now(t).mn
    ensures Now(t).mn.Keys == {A} && Now(t).mi == map[] && Now(t).md == map[] && 1024 in Now(t).bd
    ensures var f := Now(t).mn[A];
            && f.deleted && f.sequence == 2 && |f.blocks| == 1
            && f.blocks[0].hash == Hash0() && f.blocks[0].blockseq == Some(1024)
  {
    hide Reaches;
    var a := Resolve(Buried(A));
    Then(Initial(e), s, a, pre);
    t := Next(s, a);
    assert FirstPointed(Now(s).mn[A].blocks, Hash0()) == Some(Now(s).mn[A].blocks[0]);
  }

  /** Either nothing is staged or the file is, once more. */
  lemma Entomb(e: Epoch, again: bool, pre: Premises) returns (s: State, f: FileInfo)
    ensures Reaches(Initial(e), s, pre) && Entombed(s, e, f) && s.jobs == map[] && s.nextJob == 1
    ensures Now(s).mi == if again then map[(e, A) := FromWire(Again(A))] else map[]
    ensures |f.blocks| == 1 && f.blocks[0].hash == Hash0() && f.blocks[0].blockseq == Some(1024)
  {
    hide Reaches, Settled, ValidName, ValidInfo, SeqsOf;
    s := CommitOne(e, pre);
    s := Bury(e, s, pre);
    f := Now(s).mn[A];
    assert Now(s).mn == map[A := f];
    Then(Initial(e), s, Peer(0, 10), pre);
    s := Next(s, Peer(0, 10));
    if again { s := StageAgain(e, s, pre); }
    s := PeekAndFlush(e, s, f, pre);
    OneSeq(f);
  }

  lemma StageAgain(e: Epoch, s: State, pre: Premises) returns (t: State)
    requires Reaches(Initial(e), s, pre) && Shaped(s) && s.epoch == e && Now(s).mi == map[]
    ensures Reaches(Initial(e), t, pre) && Shaped(t) && t == s.(history := t.history)
    ensures Now(t) == Now(s).(mi := map[(e, A) := FromWire(Again(A))]) && SeqsOf(FromWire(Again(A))) == {}
  {
    hide Reaches, InboxCovers, ValidName, ValidInfo;
    Names(e);
    AgainValid(A);
    Then(Initial(e), s, Stage(Again(A)), pre);
    t := Next(s, Stage(Again(A)));
  }

  lemma AgainValid(name: Name)
    ensures ValidInfo(Again(name))
  {
    FileValid(name);
  }

  lemma OneSeq(f: FileInfo)
    requires |f.blocks| == 1 && f.blocks[0].blockseq == Some(1024)
    ensures SeqsOf(f) == {1024}
  {
    forall q ensures q in SeqsOf(f) <==> q == 1024 { SeqsIff(f, q); }
  }

  lemma PeekAndFlush(e: Epoch, s: State, f: FileInfo, pre: Premises) returns (t: State)
    requires Reaches(Initial(e), s, pre) && Shaped(s) && A in Now(s).mn && Now(s).mn[A] == f
    ensures Reaches(Initial(e), t, pre) && t == s.(calls := t.calls, flushed := |s.history| - 1)
    ensures (A, f) in t.calls.peeked
  {
    hide Reaches;
    Then(Initial(e), s, Peek(A), pre);
    t := FlushAll(Initial(e), Next(s, Peek(A)), pre);
  }

  lemma FloorTen(md: map<Device, int>)
    requires md == map[0 := 10]
    ensures PeerFloor(md) == Some(10)
  {
    assert md.Keys == {0};
  }

  /** A job that scans the deleted file prunes its row. */
  lemma PruneTomb(e: Epoch, s: State, f: FileInfo, pre: Premises) returns (t: State)
    requires Reaches(Initial(e), s, pre) && Entombed(s, e, f) && s.jobs == map[] && s.nextJob == 1
    ensures Reaches(Initial(e), t, pre) && Shaped(t) && t.epoch == e && t.flushed == |t.history| - 1 && t.nextJob == 2
    ensures t.pending == {} && t.calls == s.calls && Now(t) == Now(s).(mn := map[])
  {
    hide Reaches, SeqsOf;
    Then(Initial(e), s, Register, pre);
    t := Next(s, Register);
    t := ScanTomb(e, t, f, pre);
    t := DropTomb(e, t, f, pre);
  }

  lemma ScanTomb(e: Epoch, s: State, f: FileInfo, pre: Premises) returns (t: State)
    requires Reaches(Initial(e), s, pre) && Entombed(s, e, f) && s.jobs == map[1 := Job({}, {}, Registered)]
    ensures Reaches(Initial(e), t, pre) && t == s.(jobs := t.jobs) && t.jobs.Keys == {1}
    ensures t.jobs[1].stage.Ready? && t.jobs[1].stage.floor == Some(10)
  {
    hide Reaches, ScanSeqs, ScanHashes, LiveSeqs, FileSeqs, PendingSeqs, PeerFloor, SeqsOf;
    LiveIsScanned(Now(s), e);
    Then(Initial(e), s, Snapshot(1), pre);
    t := Next(s, Snapshot(1));
    t := ScanIt(e, t, pre);
    FloorTen(Now(s).md);
  }

  lemma ScanIt(e: Epoch, s: State, pre: Premises) returns (t: State)
    requires Reaches(Initial(e), s, pre) && Shaped(s) && s.jobs.Keys == {1} && s.jobs[1].stage.Snapped?
    ensures Reaches(Initial(e), t, pre) && t == s.(jobs := t.jobs) && t.jobs.Keys == {1}
    ensures t.jobs[1].stage.Ready? && t.jobs[1].stage.floor == PeerFloor(Now(s).md)
  {
    hide Reaches, ScanSeqs, ScanHashes, PeerFloor;
    Then(Initial(e), s, Scan(1), pre);
    t := Next(s, Scan(1));
  }

  lemma LiveIsScanned(db: Db, e: Epoch)
    requires forall x | x in db.mi :: SeqsOf(db.mi[x]) == {}
    ensures LiveSeqs(db, e) <= ScanSeqs(db, e)
  {}

  lemma DropTomb(e: Epoch, s: State, f: FileInfo, pre: Premises) returns (t: State)
    requires Reaches(Initial(e), s, pre) && Entombed(s, e, f) && s.jobs.Keys == {1} && s.nextJob == 2
    requires s.jobs[1].stage.Ready? && s.jobs[1].stage.floor == Some(10)
    ensures Reaches(Initial(e), t, pre) && Shaped(t) && t.flushed == |t.history| - 1 && Now(t) == Now(s).(mn := map[])
    ensures t == s.(history := t.history, cut := t.cut)
  {
    hide Reaches, SeqsOf;
    Then(Initial(e), s, Drop(1, FileRow(A)), pre);
    t := Next(s, Drop(1, FileRow(A)));
    assert map[A := f] - {A} == map[];
  }

  lemma ReachesOn(s: State, m: State, t: State, pre: Premises)
    requires Reaches(s, m, pre) && Reaches(m, t, pre)
    ensures Reaches(s, t, pre)
  {
    hide Runs;
    var v :| Runs(s, v, m, pre);
    var w :| Runs(m, w, t, pre);
    RunsOn(s, v, m, w, t, pre);
  }

  lemma NothingLeft(s: State, e: Epoch)
    requires Shaped(s) && s.epoch == e && 2 in s.jobs && s.jobs[2].seqs == {} && s.pending == {}
    requires Now(s).mn == map[] && Now(s).mi == map[]
    ensures LiveSeqs(Now(s), e) == {} && Visible(s, 2) == {}
  {
    assert FileSeqs(Now(s)) == {} && LiveSeqs(Now(s), e) == {} && ScanSeqs(Now(s), e) == {};
  }

  /** Another job finds nothing any more and drops the row of the deleted file's block. */
  lemma DropBuried(e: Epoch, s: State, pre: Premises) returns (t: State)
    requires Reaches(Initial(e), s, pre) && Shaped(s) && s.epoch == e && s.flushed == |s.history| - 1
    requires s.nextJob == 2 && s.pending == {} && Now(s).mn == map[] && Now(s).mi == map[] && 1024 in Now(s).bd
    ensures Reaches(Initial(e), t, pre) && Shaped(t) && t.calls == s.calls
    ensures Now(t) == Now(s).(bd := Now(s).bd - {1024})
  {
    hide Reaches, LiveSeqs, FileSeqs, Visible;
    Then(Initial(e), s, Register, pre);
    var s1 := Next(s, Register);
    NothingLeft(s1, e);
    t := DropsMissed(s1, 2, 1024, pre);
    ReachesOn(Initial(e), s1, t, pre);
  }

  /** A deleted file that lists blocks is pruned and collected, and then written back by a call that had read it. */
  lemma TombstoneBreaks(pre: Premises)
    requires !pre.backed
    ensures !SafeUnder(pre)
  {
    hide Reaches, Kept, PruneAll;
    var e: Epoch := 0;
    var s, f := Entomb(e, false, pre);
    s := PruneTomb(e, s, f, pre);
    s := DropBuried(e, s, pre);
    PutBack(e, s, f, pre);
  }

  lemma PutBack(e: Epoch, s: State, f: FileInfo, pre: Premises)
    requires Reaches(Initial(e), s, pre) && Shaped(s) && (A, f) in s.calls.peeked && A !in Now(s).mn && !pre.backed
    requires 1024 in SeqsOf(f) && 1024 !in Now(s).bd
    ensures !SafeUnder(pre)
  {
    hide Reaches, SeqsOf;
    Then(Initial(e), s, Restore(A, f), pre);
    var t := Next(s, Restore(A, f));
    assert A in Now(t).mn && Now(t).mn[A] == f;
    Unsafe(e, t, pre);
  }

  /** Collection is safe in every run exactly under all the premises. */
  lemma SafetyExactly(pre: Premises)
    ensures SafeUnder(pre) <==> pre == STRICT
  {
    hide SafeUnder;
    if !pre.scanSees { NestedNameBreaks(pre); }
    else if !pre.crashSees { UnflushedScanBreaks(pre); }
    else if !pre.intact { OldEpochBreaks(pre); }
    else if !pre.recorded { LateRecordBreaks(pre); }
    else if !pre.spared { LateDropBreaks(pre); }
    else if !pre.freshLookup { StaleLookupBreaks(pre); }
    else if !pre.freshCopy { StaleCopyBreaks(pre); }
    else if !pre.backed { TombstoneBreaks(pre); }
    else {
      assert pre == STRICT;
      StrictIsSafe();
    }
  }

  // ---------------------------------------------------------------- a promotion that comes late

  /**
    A file that waits for a block is promoted although all premises hold: the check took the block from
    the deleted file's entry, which the collector pruned before the commit.
   */
  lemma LatePromoteBreaks(e: Epoch)
    ensures exists s, f :: Reaches(Initial(e), s, STRICT) && Enabled(s, LateComplete(A, At(3), f), STRICT)
                           && s.epoch == e
                           && !FolderComplete.Whole(PromoteStaged(Now(s), e, A), A)
                           && Reaches(Initial(e), Write(s, PromoteStaged(Now(s), e, A)), STRICT)
  {
    hide Reaches, FolderComplete.Whole, PruneAll, Entombed, PromoteStaged, Carry, Files.Complete;
    var s, f := Entomb(e, true, STRICT);
    var t := PruneTomb(e, s, f, STRICT);
    CheckPasses(f);
    assert Enabled(t, LateComplete(A, At(3), f), STRICT) by { assert Entombed(s, e, f); PeekedTomb(s, e, f); }
    Then(Initial(e), t, LateComplete(A, At(3), f), STRICT);
    FolderComplete.LateWhole(Now(t), e, A, A);
  }

  lemma PeekedTomb(s: State, e: Epoch, f: FileInfo)
    requires Entombed(s, e, f)
    ensures (A, f) in s.calls.peeked
  {}

  lemma CheckPasses(f: FileInfo)
    requires |f.blocks| == 1 && f.blocks[0].hash == Hash0() && f.blocks[0].blockseq == Some(1024)
    ensures !Files.Complete(FromWire(Again(A)).blocks) && Files.Complete(Carry(FromWire(Again(A)).blocks, f.blocks))
  {
    var blocks := FromWire(Again(A)).blocks;
    assert !blocks[0].HasPointer() && FirstPointed(f.blocks, Hash0()) == Some(f.blocks[0]);
    assert Carry(blocks, f.blocks)[0] == CarryOne(blocks[0], f.blocks);
  }

  // ---------------------------------------------------------------- a late metadata update

  /** An update is compared with a whole entry; before it is committed another update empties the file. */
  const LATE: seq<Action> := [Compare(Touched(A)), Stage(Emptied(A)), Complete(A, At(3)), Metadata(Touched(A))]

  lemma NewerVersion()
    ensures CompareSpec(At(1).value, At(2).value) == Some(Less)
  {
    var a, b := [Counter(1, 1)], [Counter(1, 2)];
    assert VersionVectors.Lookup(a, 1) == 1 && VersionVectors.Lookup(b, 1) == 2;
    assert b[0].value > VersionVectors.Lookup(a, b[0].id);
  }

  lemma CompareAndEmpty(e: Epoch, s: State) returns (t: State)
    requires Settled(s, e)
    ensures Runs(s, LATE[..2], t, STRICT) && Shaped(t) && t.epoch == e && Touched(A) in t.calls.compared
    ensures Now(t) == Now(s).(mi := map[(e, A) := FromWire(Emptied(A))])
  {
    hide InboxCovers, ValidName;
    Names(e);
    NewerVersion();
    assert ValidInfo(Emptied(A));
    var s1 := Next(s, LATE[0]);
    t := Next(s1, LATE[1]);
    assert LATE[..2][1..] == [LATE[1]] && [LATE[1]][1..] == [] && Runs(t, [], t, STRICT);
  }

  lemma PromoteAndPut(e: Epoch, s: State) returns (t: State)
    requires Shaped(s) && s.epoch == e && Touched(A) in s.calls.compared && A in Now(s).mn
    requires (e, A) in Now(s).mi && Now(s).mi[(e, A)] == FromWire(Emptied(A))
    ensures Runs(s, LATE[2..], t, STRICT) && Shaped(t) && !FolderComplete.Whole(Now(t), A)
    ensures A in Now(t).mn && Now(t).mn[A].version == At(2)
  {
    var s1 := Next(s, LATE[2]);
    assert Now(s1).mn[A].blocks == [];
    t := Next(s1, LATE[3]);
    assert LATE[2..][1..] == [LATE[3]] && [LATE[3]][1..] == [] && Runs(t, [], t, STRICT);
    assert !Now(t).mn[A].blocks[0].HasPointer();
  }

  /**
    An entry that is whole waits for blocks again after an update of its metadata was compared with it
    and committed late: no conflict, no pruning and no crash are needed, and all premises hold.  The
    version that was promoted in between is lost, too.
   */
  lemma LateMetadataBreaks(e: Epoch)
    ensures exists s, t :: Reaches(Initial(e), s, STRICT) && Shaped(s) && FolderComplete.Whole(Now(s), A)
                           && Runs(s, LATE, t, STRICT) && Shaped(t) && !FolderComplete.Whole(Now(t), A)
                           && A in Now(t).mn && Now(t).mn[A].version == At(2)
  {
    hide Reaches, Runs, FolderComplete.Whole;
    var s := CommitOne(e, STRICT);
    SettledWhole(s, e);
    var m := CompareAndEmpty(e, s);
    var t := PromoteAndPut(e, m);
    assert LATE == LATE[..2] + LATE[2..];
    RunsOn(s, LATE[..2], m, LATE[2..], t, STRICT);
  }

  lemma SettledWhole(s: State, e: Epoch)
    requires Settled(s, e)
    ensures FolderComplete.Whole(Now(s), A)
  {}

  lemma {:induction false} RunsOn(s: State, v: seq<Action>, m: State, w: seq<Action>, t: State, pre: Premises)
    requires Runs(s, v, m, pre) && Runs(m, w, t, pre)
    ensures Runs(s, v + w, t, pre)
    decreases |v|
  {
    hide Enabled, Next;
    if v == [] {
      assert v + w == w;
    } else {
      Weaken(s, v[0], pre);
      assert (v + w)[0] == v[0] && (v + w)[1..] == v[1..] + w;
      RunsOn(Next(s, v[0]), v[1..], m, w, t, pre);
    }
  }

  // ---------------------------------------------------------------- how tight the guards are

  lemma KeepsPointer(db: Db, name: Name, stored: FileInfo, q: nat)
    requires q in SeqsOf(stored)
    ensures q in SeqsOf(Commit(db, name, stored).mn[name])
  {
    SeqsIff(stored, q);
    var i :| 0 <= i < |stored.blocks| && stored.blocks[i].blockseq == Some(q);
    var f := Commit(db, name, stored).mn[name];
    assert f.blocks[i] == stored.blocks[i];
    SeqsIff(f, q);
  }

  /**
    In whatever state a job takes its snapshot: a number of a staged file that the job goes through and
    will not know can be dropped at once, and the file, if complete, promoted without it, all other premises kept.
   */
  lemma MissedIsLost(s: State, j: nat, name: Name, q: nat)
    requires Enabled(s, Snapshot(j), STRICT.(scanSees := false)) && q in Inputs(s, j) && q !in Visible(s, j)
    requires (s.epoch, name) in Now(s).mi && q in SeqsOf(Now(s).mi[(s.epoch, name)])
    ensures exists t :: Reaches(s, t, STRICT.(scanSees := false)) && Shaped(t) && t.epoch == s.epoch
                        && Now(t) == Now(s).(bd := Now(s).bd - {q})
                        && forall v | CompleteFile(Now(t), t.epoch, name, v).Promoted? ::
                             !Kept(CompleteFile(Now(t), t.epoch, name, v).db)
  {
    hide Reaches, Visible, Kept, FileSeqs, LiveSeqs;
    var t := DropsMissed(s, j, q, STRICT.(scanSees := false));
    assert Now(t).mi == Now(s).mi && q !in Now(t).bd;
    forall v | CompleteFile(Now(t), t.epoch, name, v).Promoted?
      ensures !Kept(CompleteFile(Now(t), t.epoch, name, v).db)
    {
      PromotedDangles(Now(t), t.epoch, name, v, q);
    }
  }

  /**
    Likewise a number of a committed file in any state that a crash can still fall back to: it can be
    dropped at once, and the crash then leaves the file without it.
   */
  lemma UndoneIsLost(s: State, j: nat, k: nat, q: nat, e: Epoch)
    requires Enabled(s, Snapshot(j), STRICT.(crashSees := false)) && q in Inputs(s, j) && q !in Visible(s, j)
    requires s.flushed <= k < |s.history| && q in FileSeqs(s.history[k])
    requires StagedSeqs(s.history[k], e) <= s.history[k].bd.Keys - {q}
    ensures exists t :: Reaches(s, t, STRICT.(crashSees := false)) && Shaped(t) && !Kept(Now(t))
  {
    hide Reaches, Visible, LiveSeqs, StagedSeqs;
    var t := DropsMissed(s, j, q, STRICT.(crashSees := false));
    SameStaged(s.history[k], t.history[k], e);
    Then(s, t, Crash(k, e), STRICT.(crashSees := false));
    var u := Next(t, Crash(k, e));
    assert u.history[k] == s.history[k].(bd := s.history[k].bd - {q});
    var n :| n in s.history[k].mn && q in SeqsOf(s.history[k].mn[n]);
    assert n in Now(u).mn && q in SeqsOf(Now(u).mn[n]) && q !in Now(u).bd;
  }

  lemma SameStaged(db: Db, t: Db, e: Epoch)
    requires t.mi == db.mi
    ensures StagedSeqs(t, e) == StagedSeqs(db, e)
  {}

  /**
    In whatever state a process starts: a number in a staged file of its epoch whose row is gone is
    promoted with the file, all other premises kept.
   */
  lemma ReturnedIsLost(s: State, k: nat, e: Epoch, name: Name, q: nat)
    requires Enabled(s, Crash(k, e), STRICT.(intact := false)) && (e, name) in s.history[k].mi
    requires q in SeqsOf(s.history[k].mi[(e, name)]) && q !in s.history[k].bd
    ensures exists t :: Reaches(s, t, STRICT.(intact := false)) && Shaped(t) && t.epoch == e
                        && Now(t) == s.history[k]
                        && forall v | CompleteFile(Now(t), e, name, v).Promoted? ::
                             !Kept(CompleteFile(Now(t), e, name, v).db)
  {
    hide Reaches, Kept, CompleteFile, SeqsOf;
    ReachesItself(s, STRICT.(intact := false));
    Then(s, s, Crash(k, e), STRICT.(intact := false));
    var t := Next(s, Crash(k, e));
    forall v | CompleteFile(Now(t), e, name, v).Promoted? ensures !Kept(CompleteFile(Now(t), e, name, v).db) {
      PromotedDangles(Now(t), e, name, v, q);
    }
  }

  lemma DropsMissed(s: State, j: nat, q: nat, pre: Premises) returns (t: State)
    requires Enabled(s, Snapshot(j), pre) && q in Inputs(s, j) && q !in Visible(s, j)
    ensures Reaches(s, t, pre) && t.epoch == s.epoch && t.flushed == s.flushed && |t.history| == |s.history|
    ensures t.calls == s.calls
    ensures forall k | 0 <= k < |s.history| :: t.history[k] == s.history[k].(bd := s.history[k].bd - {q})
  {
    hide Reaches, ScanSeqs, ScanHashes, PeerFloor, LiveSeqs, FileSeqs, PruneAll, PendingSeqs;
    ReachesItself(s, pre);
    Then(s, s, Snapshot(j), pre);
    var s1 := WithJob(s, j, s.jobs[j].(stage := Snapped(s.flushed, Now(s))));
    assert Next(s, Snapshot(j)) == s1;
    Then(s, s1, Scan(j), pre);
    var s2 := Next(s1, Scan(j));
    PendingSame(s, s2);
    t := DropsUnknown(s, s2, j, q, pre);
  }

  lemma PendingSame(s: State, t: State)
    requires t.pending == s.pending
    ensures PendingSeqs(t) == PendingSeqs(s)
  {}

  lemma DropsUnknown(s0: State, s: State, j: nat, q: nat, pre: Premises) returns (t: State)
    requires Reaches(s0, s, pre) && Shaped(s) && j in s.jobs && s.jobs[j].stage.Ready?
    requires q in Inputs(s, j) && q !in s.jobs[j].seqs && q !in PendingSeqs(s)
    ensures Reaches(s0, t, pre) && t.epoch == s.epoch && t.flushed == s.flushed && |t.history| == |s.history|
    ensures t.calls == s.calls
    ensures forall k | 0 <= k < |s.history| :: t.history[k] == s.history[k].(bd := s.history[k].bd - {q})
  {
    hide Reaches, PendingSeqs;
    Then(s0, s, Drop(j, DataRow(q)), pre);
    t := Next(s, Drop(j, DataRow(q)));
  }

  lemma ReachesItself(s: State, pre: Premises)
    ensures Reaches(s, s, pre)
  {
    assert Runs(s, [], s, pre);
  }

  lemma PromotedDangles(db: Db, e: Epoch, name: Name, v: Option<Vector>, q: nat)
    requires CompleteFile(db, e, name, v).Promoted? && q in SeqsOf(db.mi[(e, name)]) && q !in db.bd
    ensures !Kept(CompleteFile(db, e, name, v).db)
  {
    KeepsPointer(db.(mi := db.mi - {(e, name)}), name, db.mi[(e, name)], q);
    var t := CompleteFile(db, e, name, v).db;
    assert name in t.mn && q in SeqsOf(t.mn[name]) && q !in t.bd;
  }

  /** A conflict copy leaves all committed files with their data if and only if what it takes over is there. */
  lemma CopyKeptIff(db: Db, f: WireInfo, blocks: seq<Block>)
    requires Kept(db)
    ensures Kept(CommitCopy(db, f, blocks)) <==> SeqsIn(blocks) <= db.bd.Keys
  {
    var t, stored := CommitCopy(db, f, blocks), FromWire(f).(blocks := blocks);
    var mid := db.(mr := db.mr + set p | p in Separated(blocks) :: (p.0, f.name));
    if Kept(t) {
      forall q | q in SeqsIn(blocks) ensures q in db.bd {
        assert q in SeqsOf(stored);
        KeepsPointer(mid, f.name, stored, q);
        assert q in SeqsOf(t.mn[f.name]);
      }
    }
    if SeqsIn(blocks) <= db.bd.Keys {
      if f.name in db.mn { CarrySeqs(stored, db.mn[f.name]); }
      assert SeqsOf(t.mn[f.name]) == SeqsOf(Carried(mid, f.name, stored));
    }
  }
}
