/** File entries, as sent by peers and as stored with block pointers, and the checks on incoming ones. */
module Files {
  import opened Prelude
  import opened VersionVectors

  const SLASH: Byte := 47
  const DOT: Byte := 46

  const HASH_LEN: nat := 32
  const MAX_BLOCK_SIZE: int := 16 * 1024 * 1024
  const I64_MAX: int := 0x7FFF_FFFF_FFFF_FFFF

  type Name = Bytes
  type Hash = Bytes

  // ---------------------------------------------------------------- what peers send

  datatype WireBlock = WireBlock(offset: int, size: int, hash: Hash)

  datatype WireInfo = WireInfo(name: Name, version: Option<Vector>, deleted: bool, size: int, blocks: seq<WireBlock>)

  function Covered(blocks: seq<WireBlock>): int {
    if blocks == [] then 0 else Covered(blocks[..|blocks| - 1]) + blocks[|blocks| - 1].size
  }

  /** Blocks of legal size with full hashes, laid end to end from offset 0. */
  predicate Contiguous(blocks: seq<WireBlock>) {
    blocks == [] ||
    (var init, b := blocks[..|blocks| - 1], blocks[|blocks| - 1];
     && Contiguous(init)
     && 0 < b.size <= MAX_BLOCK_SIZE && |b.hash| == HASH_LEN
     && b.offset == Covered(init) && Covered(blocks) <= I64_MAX)
  }

  predicate ValidInfo(f: WireInfo) {
    f.size >= 0 && Contiguous(f.blocks) && (f.blocks != [] ==> Covered(f.blocks) == f.size)
  }

  lemma {:induction false} ContiguousPrefix(blocks: seq<WireBlock>, n: nat)
    requires n <= |blocks| && Contiguous(blocks)
    ensures Contiguous(blocks[..n])
    decreases |blocks|
  {
    if n < |blocks| {
      ContiguousPrefix(blocks[..|blocks| - 1], n);
      assert blocks[..|blocks| - 1][..n] == blocks[..n];
    } else {
      assert blocks[..n] == blocks;
    }
  }

  method ValidateFileInfo(f: WireInfo) returns (ok: bool)
    ensures ok <==> ValidInfo(f)
  {
    if f.size < 0 { return false; }
    var expectedOffset := 0;
    for i := 0 to |f.blocks|
      invariant Contiguous(f.blocks[..i]) && expectedOffset == Covered(f.blocks[..i])
    {
      var b := f.blocks[i];
      assert f.blocks[..i + 1][..i] == f.blocks[..i];
      if b.size <= 0 || b.size > MAX_BLOCK_SIZE || |b.hash| != HASH_LEN || b.offset != expectedOffset
         || expectedOffset + b.size > I64_MAX {
        if Contiguous(f.blocks) { ContiguousPrefix(f.blocks, i + 1); }
        return false;
      }
      expectedOffset := expectedOffset + b.size;
    }
    assert f.blocks[..|f.blocks|] == f.blocks;
    ok := f.blocks == [] || expectedOffset == f.size;
  }

  /** Of legal size, with a full hash, where the block before it ends. */
  predicate Placed(blocks: seq<WireBlock>, i: int)
    requires 0 <= i < |blocks|
  {
    var b := blocks[i];
    && 1 <= b.size <= 16_777_216 && |b.hash| == 32 && b.offset + b.size < 0x8000_0000_0000_0000
    && b.offset == if i == 0 then 0 else blocks[i - 1].offset + blocks[i - 1].size
  }

  lemma {:induction false} ContiguousIff(blocks: seq<WireBlock>)
    ensures Contiguous(blocks) <==> forall i | 0 <= i < |blocks| :: Placed(blocks, i)
    ensures Contiguous(blocks) && blocks != [] ==>
              Covered(blocks) == blocks[|blocks| - 1].offset + blocks[|blocks| - 1].size
  {
    if blocks != [] {
      var n := |blocks| - 1;
      var init := blocks[..n];
      ContiguousIff(init);
      assert forall i | 0 <= i < n :: Placed(blocks, i) <==> Placed(init, i);
      if Contiguous(blocks) { assert Contiguous(init) && Placed(blocks, n); }
      if forall i | 0 <= i < |blocks| :: Placed(blocks, i) {
        assert forall i | 0 <= i < n :: Placed(init, i);
        assert Placed(blocks, n);
      }
    }
  }

  /**
    Accepted is a list of blocks end to end from 0, each of 1 byte to 16 MiB and with a 32-byte hash, that
    ends at the file's size; or no blocks and any size.
   */
  lemma ValidInfoIff(f: WireInfo)
    ensures ValidInfo(f) <==>
            && f.size >= 0 && (forall i | 0 <= i < |f.blocks| :: Placed(f.blocks, i))
            && (f.blocks != [] ==> f.blocks[|f.blocks| - 1].offset + f.blocks[|f.blocks| - 1].size == f.size)
  {
    ContiguousIff(f.blocks);
  }

  // ---------------------------------------------------------------- names

  /** The parts between slashes. */
  function Split(s: Bytes): (parts: seq<Bytes>)
    ensures |parts| > 0
  {
    if s == [] then [[]]
    else
      var rest := Split(s[1..]);
      if s[0] == SLASH then [[]] + rest else [[s[0]] + rest[0]] + rest[1..]
  }

  predicate ValidName(name: Name) {
    name != [] && 0 !in name && forall p | p in Split(name) :: p != [] && p != [DOT, DOT]
  }

  method ValidateFileName(name: Name) returns (ok: bool)
    ensures ok <==> ValidName(name)
  {
    if name == [] { return false; }
    if name[0] == SLASH {
      assert Split(name)[0] == [] && Split(name)[0] in Split(name);
      return false;
    }
    if 0 in name { return false; }
    var parts := Split(name);
    for i := 0 to |parts|
      invariant forall k | 0 <= k < i :: parts[k] != [] && parts[k] != [DOT, DOT]
    {
      if parts[i] == [] || parts[i] == [DOT, DOT] {
        assert parts[i] in parts;
        return false;
      }
    }
    ok := true;
  }

  function JoinParts(parts: seq<Bytes>): Bytes
    requires parts != []
  {
    if |parts| == 1 then parts[0] else parts[0] + [SLASH] + JoinParts(parts[1..])
  }

  lemma {:induction false} SplitFirst(p: Bytes, rest: Bytes)
    requires SLASH !in p
    ensures Split(p) == [p] && Split(p + [SLASH] + rest) == [p] + Split(rest)
  {
    var whole := p + [SLASH] + rest;
    if p == [] {
      assert whole[1..] == rest;
    } else {
      SplitFirst(p[1..], rest);
      assert whole[1..] == p[1..] + [SLASH] + rest;
      assert [p[0]] + p[1..] == p;
    }
  }

  /** Splitting undoes joining. */
  lemma {:induction false} SplitJoined(parts: seq<Bytes>)
    requires parts != [] && forall p | p in parts :: SLASH !in p
    ensures Split(JoinParts(parts)) == parts
    decreases |parts|
  {
    assert parts[0] in parts;
    if |parts| == 1 {
      SplitFirst(parts[0], []);
    } else {
      SplitJoined(parts[1..]);
      SplitFirst(parts[0], JoinParts(parts[1..]));
      assert [parts[0]] + parts[1..] == parts;
    }
  }

  lemma {:induction false} JoinedNul(parts: seq<Bytes>)
    requires parts != []
    ensures 0 in JoinParts(parts) <==> exists p :: p in parts && 0 in p
    decreases |parts|
  {
    if |parts| > 1 {
      JoinedNul(parts[1..]);
      assert parts == [parts[0]] + parts[1..];
    }
  }

  /**
    Of names that consist of `parts` between slashes, those are accepted in which no part is empty or the
    parent directory, and none has a NUL.
   */
  lemma ValidJoined(parts: seq<Bytes>)
    requires parts != [] && forall p | p in parts :: SLASH !in p
    ensures ValidName(JoinParts(parts)) <==> forall p | p in parts :: p != [] && p != [46, 46] && 0 !in p
  {
    SplitJoined(parts);
    JoinedNul(parts);
    assert Split([]) == [[]];
  }

  /** No slash at either end and never two in a row. */
  predicate Tidy(s: Bytes) {
    && s != [] && s[0] != SLASH && s[|s| - 1] != SLASH
    && forall i | 0 <= i < |s| - 1 :: !(s[i] == SLASH && s[i + 1] == SLASH)
  }

  predicate NonEmptyParts(parts: seq<Bytes>) { forall i | 0 <= i < |parts| :: parts[i] != [] }

  lemma {:induction false} SplitTidy(s: Bytes)
    ensures NonEmptyParts(Split(s)) <==> Tidy(s)
    ensures s != [] && s[0] != SLASH ==> Split(s)[0] != []
    decreases |s|
  {
    if s == [] || s[0] == SLASH {
      assert Split(s)[0] == [];
    } else if |s| == 1 {
      assert Split(s[1..]) == [[]];
    } else if s[1] == SLASH {
      var after := Split(s[2..]);
      assert s[1..][1..] == s[2..];
      assert Split(s[1..]) == [[]] + after && ([[]] + after)[1..] == after;
      assert [s[0]] + [] == [s[0]];
      assert Split(s) == [[s[0]]] + after;
      SplitTidy(s[2..]);
      SameParts([s[0]], after);
      TidySlash(s);
    } else {
      var rest, parts := Split(s[1..]), Split(s);
      SplitTidy(s[1..]);
      assert forall i | 1 <= i < |parts| :: parts[i] == rest[i];
      TidyCons(s);
    }
  }

  lemma SameParts(first: Bytes, rest: seq<Bytes>)
    requires first != []
    ensures NonEmptyParts([first] + rest) <==> NonEmptyParts(rest)
  {
    if NonEmptyParts([first] + rest) {
      forall i | 0 <= i < |rest| ensures rest[i] != [] { assert ([first] + rest)[i + 1] != []; }
    }
  }

  lemma TidySlash(s: Bytes)
    requires |s| > 1 && s[0] != SLASH && s[1] == SLASH
    ensures Tidy(s) <==> Tidy(s[2..])
  {
    if Tidy(s[2..]) {
      forall i | 0 <= i < |s| - 1 ensures !(s[i] == SLASH && s[i + 1] == SLASH) {
        if i > 1 { assert s[2..][i - 2] == s[i] && s[2..][i - 1] == s[i + 1]; }
        if i == 1 { assert s[2..][0] == s[2]; }
      }
    }
    if Tidy(s) {
      assert |s| > 2 && s[2] != SLASH;
      forall i | 0 <= i < |s[2..]| - 1 ensures !(s[2..][i] == SLASH && s[2..][i + 1] == SLASH) {
        assert s[2..][i] == s[i + 2] && s[2..][i + 1] == s[i + 3];
      }
    }
  }

  lemma TidyCons(s: Bytes)
    requires |s| > 1 && s[0] != SLASH && s[1] != SLASH
    ensures Tidy(s) <==> Tidy(s[1..])
  {
    if Tidy(s[1..]) {
      forall i | 0 <= i < |s| - 1 ensures !(s[i] == SLASH && s[i + 1] == SLASH) {
        if i > 0 { assert s[1..][i - 1] == s[i] && s[1..][i] == s[i + 1]; }
      }
    }
    if Tidy(s) {
      forall i | 0 <= i < |s[1..]| - 1 ensures !(s[1..][i] == SLASH && s[1..][i + 1] == SLASH) {
        assert s[1..][i] == s[i + 1] && s[1..][i + 1] == s[i + 2];
      }
    }
  }

  lemma ValidIsTidy(name: Name)
    requires ValidName(name)
    ensures Tidy(name)
  {
    SplitTidy(name);
    forall i | 0 <= i < |Split(name)| ensures Split(name)[i] != [] { assert Split(name)[i] in Split(name); }
  }

  /** Everything before the last slash; empty for a name at the root. */
  function Dirname(name: Name): Name
  {
    if name == [] then [] else if name[|name| - 1] == SLASH then name[..|name| - 1] else Dirname(name[..|name| - 1])
  }

  /** A name without a slash is the only kind whose directory is empty. */
  lemma RootNames(name: Name)
    requires Tidy(name)
    ensures Dirname(name) == [] <==> SLASH !in name
  {
    DirnameSplit(name);
  }

  /** A name is its directory, a slash and a last part without slashes. */
  lemma {:induction false} DirnameSplit(name: Name)
    ensures SLASH !in name ==> Dirname(name) == []
    ensures SLASH in name ==>
              var n := |Dirname(name)|;
              n < |name| && name[..n] == Dirname(name) && name[n] == SLASH && SLASH !in name[n + 1..]
  {
    if name != [] && name[|name| - 1] != SLASH {
      var init := name[..|name| - 1];
      DirnameSplit(init);
      if SLASH in name {
        assert SLASH in init;
        var n := |Dirname(init)|;
        assert name[n + 1..] == init[n + 1..] + [name[|name| - 1]];
      }
    }
  }

  // ---------------------------------------------------------------- what the store keeps

  /** A block with its pointer: inline bytes, or the number of its data row. */
  datatype Block = Block(offset: int, size: int, hash: Hash, blockseq: Option<nat>, inlineData: Option<Bytes>) {
    predicate HasPointer() { blockseq.Some? || inlineData.Some? }
  }

  datatype FileInfo = FileInfo(version: Option<Vector>, sequence: int, deleted: bool, size: int, blocks: seq<Block>)

  function FromWireBlock(b: WireBlock): Block { Block(b.offset, b.size, b.hash, None, None) }

  /** Wire entries have no pointers. */
  function FromWire(f: WireInfo): (r: FileInfo)
    ensures |r.blocks| == |f.blocks|
  {
    FileInfo(f.version, 0, f.deleted, f.size,
             seq(|f.blocks|, i requires 0 <= i < |f.blocks| => FromWireBlock(f.blocks[i])))
  }

  /** The stored entry as it is sent to peers. */
  function ToWire(name: Name, f: FileInfo): (r: WireInfo)
    ensures |r.blocks| == |f.blocks|
  {
    WireInfo(name, f.version, f.deleted, f.size,
             seq(|f.blocks|, i requires 0 <= i < |f.blocks| =>
                   WireBlock(f.blocks[i].offset, f.blocks[i].size, f.blocks[i].hash)))
  }

  /** What is stored is what was sent. */
  lemma WireRoundTrip(f: WireInfo)
    ensures ToWire(f.name, FromWire(f)) == f
  {
    assert ToWire(f.name, FromWire(f)).blocks == f.blocks;
  }

  predicate Complete(blocks: seq<Block>) { forall i | 0 <= i < |blocks| :: blocks[i].HasPointer() }
}
