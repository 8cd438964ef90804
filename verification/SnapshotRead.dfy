/** Reading a byte range of a file out of a snapshot, block by block. */
module SnapshotRead {
  import opened Prelude
  import opened Files

  const U64_MAX: nat := 0xFFFF_FFFF_FFFF_FFFF

  function SatAdd(a: nat, b: nat): nat { if a + b > U64_MAX then U64_MAX else a + b }

  function SatSub(a: nat, b: nat): nat { if a < b then 0 else a - b }

  function Min(a: nat, b: nat): nat { if a < b then a else b }

  datatype Outcome = Read(bytes: Bytes) | NotFound | IoError

  /** What the resolver finds for each block; `None` when its row is missing. */
  type Fetched = seq<Option<Bytes>>

  /** The declared bytes of a block, with zeros where nothing was found. */
  function Padded(data: Option<Bytes>, size: nat): (r: Bytes)
    ensures |r| == size
  {
    seq(size, i requires 0 <= i < size => if data.Some? && i < |data.value| then data.value[i] else 0)
  }

  /** The file as the concatenation of its first `n` blocks. */
  function Whole(blocks: seq<WireBlock>, data: Fetched, n: nat): (r: Bytes)
    requires n <= |blocks| == |data| && Contiguous(blocks)
    ensures |r| == Covered(blocks[..n])
  {
    if n == 0 then []
    else
      BlockFacts(blocks, n - 1);
      assert blocks[..n][..n - 1] == blocks[..n - 1];
      Whole(blocks, data, n - 1) + Padded(data[n - 1], blocks[n - 1].size)
  }

  lemma BlockFacts(blocks: seq<WireBlock>, i: nat)
    requires i < |blocks| && Contiguous(blocks)
    ensures blocks[i].size > 0 && blocks[i].offset == Covered(blocks[..i]) >= 0
    ensures Covered(blocks[..i + 1]) == blocks[i].offset + blocks[i].size <= I64_MAX
  {
    ContiguousPrefix(blocks, i + 1);
    assert blocks[..i + 1][..i] == blocks[..i];
    CoveredPositive(blocks[..i]);
  }

  lemma {:induction false} CoveredPositive(blocks: seq<WireBlock>)
    requires Contiguous(blocks)
    ensures Covered(blocks) >= 0
  {
    if blocks != [] { CoveredPositive(blocks[..|blocks| - 1]); }
  }

  lemma {:induction false} WholePrefix(blocks: seq<WireBlock>, data: Fetched, m: nat, n: nat)
    requires m <= n <= |blocks| == |data| && Contiguous(blocks)
    ensures Whole(blocks, data, m) <= Whole(blocks, data, n)
  {
    if m < n { WholePrefix(blocks, data, m, n - 1); }
  }

  /** Block `i` occupies its declared place in the file. */
  lemma WholeBlock(blocks: seq<WireBlock>, data: Fetched, i: nat)
    requires i < |blocks| == |data| && Contiguous(blocks)
    ensures var w, b := Whole(blocks, data, |blocks|), blocks[i];
            0 <= b.offset && 0 < b.size && b.offset + b.size <= |w|
              && w[b.offset..b.offset + b.size] == Padded(data[i], b.size)
  {
    var w := Whole(blocks, data, |blocks|);
    BlockFacts(blocks, i);
    WholePrefix(blocks, data, i + 1, |blocks|);
    assert Whole(blocks, data, i + 1) == w[..Covered(blocks[..i + 1])];
  }

  /** The part of block `b` that a read of `[offset, end)` needs has been found. */
  predicate Served(b: WireBlock, data: Option<Bytes>, offset: nat, end: nat) {
    b.offset + b.size <= offset || end <= b.offset
    || (data.Some? && (if b.offset + b.size < end then b.size else end - b.offset) <= |data.value|)
  }

  /** Where the copy stands once the blocks before `start` are done. */
  function Copied(w: Bytes, offset: nat, end: nat, start: int): (r: Bytes)
    requires offset <= end <= |w|
    ensures |r| <= end - offset
  {
    if start <= offset then [] else if start < end then w[offset..start] else w[offset..end]
  }

  /** A slice of a block's data is that part of the file. */
  lemma SliceOfWhole(w: Bytes, b: WireBlock, data: Bytes, skip: nat, take: nat)
    requires 0 <= b.offset && 0 < b.size && b.offset + b.size <= |w| && skip + take <= |data| && skip + take <= b.size
    requires w[b.offset..b.offset + b.size] == Padded(Some(data), b.size)
    ensures data[skip..skip + take] == w[b.offset + skip..b.offset + skip + take]
  {
    var piece, part := data[skip..skip + take], w[b.offset + skip..b.offset + skip + take];
    forall k | 0 <= k < take ensures piece[k] == part[k] {
      assert w[b.offset..b.offset + b.size][skip + k] == Padded(Some(data), b.size)[skip + k];
    }
  }

  lemma Adjacent(w: Bytes, x: nat, y: nat, z: nat)
    requires x <= y <= z <= |w|
    ensures w[x..y] + w[y..z] == w[x..z]
  {
  }

  /** What one block contributes: where its slice starts and how long it is. */
  lemma CopyNumbers(w: Bytes, b: WireBlock, offset: nat, end: nat)
    requires offset < end <= |w| && 0 <= b.offset < end && 0 < b.size && offset < b.offset + b.size <= |w|
    ensures var skip := SatSub(offset, b.offset);
            var done := |Copied(w, offset, end, b.offset)|;
            var take := Min(SatSub(b.size, skip), end - offset - done);
            && b.offset + skip == offset + done && skip + take <= b.size && offset + done <= end
              && done == SatSub(b.offset, offset)
            && Copied(w, offset, end, b.offset) == w[offset..offset + done]
            && Copied(w, offset, end, b.offset + b.size) == w[offset..offset + done + take]
  {
  }

  /** One block's slice extends the copy. */
  lemma CopyStep(w: Bytes, b: WireBlock, data: Bytes, offset: nat, end: nat, out: Bytes)
    requires offset < end <= |w| && 0 <= b.offset < end && 0 < b.size && offset < b.offset + b.size <= |w|
    requires w[b.offset..b.offset + b.size] == Padded(Some(data), b.size) && out == Copied(w, offset, end, b.offset)
    requires |out| <= end - offset
    ensures var skip := SatSub(offset, b.offset);
            var take := Min(SatSub(b.size, skip), end - offset - |out|);
            skip + take <= |data| ==> out + data[skip..skip + take] == Copied(w, offset, end, b.offset + b.size)
  {
    hide Copied, Padded;
    var skip := SatSub(offset, b.offset);
    var take := Min(SatSub(b.size, skip), end - offset - |out|);
    CopyNumbers(w, b, offset, end);
    if skip + take <= |data| {
      SliceOfWhole(w, b, data, skip, take);
      Adjacent(w, offset, offset + |out|, offset + |out| + take);
    }
  }

  /** The slice of a block is missing exactly when the block is not served. */
  lemma SliceMissing(b: WireBlock, data: Option<Bytes>, offset: nat, end: nat)
    requires offset < end && 0 <= b.offset < end && offset < b.offset + b.size && b.size > 0
    ensures var skip := SatSub(offset, b.offset);
            data.Some? && skip + Min(SatSub(b.size, skip), end - offset - SatSub(b.offset, offset)) <= |data.value|
            <==> Served(b, data, offset, end)
  {
  }

  ghost predicate AllServed(blocks: seq<WireBlock>, data: Fetched, offset: nat, end: nat, n: nat)
    requires n <= |blocks| == |data|
  {
    forall i | 0 <= i < n :: Served(blocks[i], data[i], offset, end)
  }

  /** The loop's standing before block `i`. */
  ghost predicate Standing(blocks: seq<WireBlock>, data: Fetched, offset: nat, end: nat, i: nat, out: Bytes)
    requires i <= |blocks| == |data| && Contiguous(blocks) && offset < end <= Covered(blocks)
  {
    assert blocks[..|blocks|] == blocks;
    && AllServed(blocks, data, offset, end, i)
    && out == Copied(Whole(blocks, data, |blocks|), offset, end, Covered(blocks[..i]))
  }

  lemma StandingStart(blocks: seq<WireBlock>, data: Fetched, offset: nat, end: nat)
    requires |blocks| == |data| && Contiguous(blocks) && offset < end <= Covered(blocks)
    ensures Standing(blocks, data, offset, end, 0, [])
  {
  }

  /** A block that ends before the range leaves the copy alone. */
  lemma StandingSkip(blocks: seq<WireBlock>, data: Fetched, offset: nat, end: nat, i: nat, out: Bytes)
    requires i < |blocks| == |data| && Contiguous(blocks) && offset < end <= Covered(blocks)
    requires Standing(blocks, data, offset, end, i, out) && blocks[i].offset + blocks[i].size <= offset
    ensures Standing(blocks, data, offset, end, i + 1, out)
  {
    BlockFacts(blocks, i);
  }

  /** The slice of block `i` extends the copy, when it is there. */
  lemma StandingTake(blocks: seq<WireBlock>, data: Fetched, offset: nat, end: nat, i: nat, out: Bytes)
    requires i < |blocks| == |data| && Contiguous(blocks) && offset < end <= Covered(blocks)
    requires Standing(blocks, data, offset, end, i, out) && |out| <= end - offset
    requires offset < blocks[i].offset + blocks[i].size && 0 <= blocks[i].offset < end && blocks[i].size > 0
    ensures var skip := SatSub(offset, blocks[i].offset);
            var take := Min(SatSub(blocks[i].size, skip), end - offset - |out|);
            if data[i].None? || skip + take > |data[i].value| then !Served(blocks[i], data[i], offset, end)
            else Standing(blocks, data, offset, end, i + 1, out + data[i].value[skip..skip + take])
  {
    hide Contiguous, Covered, Whole, Padded, Copied, Served;
    var b := blocks[i];
    BlockFacts(blocks, i);
    WholeBlock(blocks, data, i);
    assert blocks[..|blocks|] == blocks;
    var w := Whole(blocks, data, |blocks|);
    assert |out| == SatSub(b.offset, offset) by { CopyNumbers(w, b, offset, end); }
    SliceMissing(b, data[i], offset, end);
    if data[i].Some? {
      CopyStep(w, b, data[i].value, offset, end, out);
    }
  }

  /** Once the copy is full, or the blocks lie past the range, the rest is not needed. */
  lemma StandingDone(blocks: seq<WireBlock>, data: Fetched, offset: nat, end: nat, i: nat, out: Bytes)
    requires i <= |blocks| == |data| && Contiguous(blocks) && offset < end <= Covered(blocks)
    requires Standing(blocks, data, offset, end, i, out)
    requires i == |blocks| || blocks[i].offset >= end || |out| == end - offset
    ensures out == Whole(blocks, data, |blocks|)[offset..end] && AllServed(blocks, data, offset, end, |blocks|)
  {
    assert blocks[..|blocks|] == blocks;
    if i < |blocks| {
      BlockFacts(blocks, i);
      forall k | i <= k < |blocks| ensures Served(blocks[k], data[k], offset, end) {
        BlockFacts(blocks, k);
        CoveredMonotone(blocks, i, k);
      }
    }
  }

  method CopyRange(blocks: seq<WireBlock>, data: Fetched, offset: nat, len: nat) returns (r: Outcome)
    requires |blocks| == |data| && Contiguous(blocks) && len > 0 && offset + len <= Covered(blocks)
    ensures r.Read? || r.IoError?
    ensures r.Read? ==> r.bytes == Whole(blocks, data, |blocks|)[offset..offset + len]
    ensures r.Read? <==> AllServed(blocks, data, offset, offset + len, |blocks|)
  {
    CoveredBound(blocks);
    assert |Whole(blocks, data, |blocks|)| == Covered(blocks) by { assert blocks[..|blocks|] == blocks; }
    hide Contiguous, Covered, Whole, Standing, Served;
    var endOffset := SatAdd(offset, len);
    var out: Bytes := [];
    var remaining := len;
    StandingStart(blocks, data, offset, endOffset);
    var i := 0;
    while i < |blocks|
      invariant 0 <= i <= |blocks| && Standing(blocks, data, offset, endOffset, i, out) && remaining == len - |out| >= 0
    {
      var b := blocks[i];
      BlockFacts(blocks, i);
      var blkEnd := SatAdd(b.offset, b.size);
      if blkEnd <= offset {
        StandingSkip(blocks, data, offset, endOffset, i, out);
        i := i + 1;
        continue;
      }
      if b.offset >= endOffset { break; }
      StandingTake(blocks, data, offset, endOffset, i, out);
      var skip := SatSub(offset, b.offset);
      var take := Min(SatSub(b.size, skip), remaining);
      if data[i].None? { return IoError; }
      if skip + take > |data[i].value| { return IoError; }
      out := out + data[i].value[skip..skip + take];
      remaining := remaining - take;
      i := i + 1;
      if remaining == 0 { break; }
    }
    StandingDone(blocks, data, offset, endOffset, i, out);
    r := Read(out);
  }

  lemma CoveredBound(blocks: seq<WireBlock>)
    requires Contiguous(blocks)
    ensures Covered(blocks) <= I64_MAX
  {
  }

  lemma {:induction false} CoveredMonotone(blocks: seq<WireBlock>, m: nat, n: nat)
    requires m <= n <= |blocks| && Contiguous(blocks)
    ensures Covered(blocks[..m]) <= Covered(blocks[..n])
  {
    if m < n {
      CoveredMonotone(blocks, m, n - 1);
      BlockFacts(blocks, n - 1);
    }
  }

  /** The end of the range that a file of `size` bytes can serve. */
  function End(size: nat, offset: nat, len: nat): (e: nat)
    ensures offset < size ==> offset <= e <= size
  {
    if offset >= size then offset else Min(offset + len, size)
  }

  /**
    A read of a live entry that passed validation returns exactly the bytes of the file in the
    range, cut at its size, and fails exactly when a block it needs is missing or too short.
   */
  method ReadBytes(entry: Option<WireInfo>, data: Fetched, offset: nat, len: nat) returns (r: Outcome)
    requires entry.Some? ==> ValidInfo(entry.value) && |data| == |entry.value.blocks|
    requires offset <= U64_MAX && len <= U64_MAX
    ensures len > 0 ==> (r.NotFound? <==> entry.None? || entry.value.deleted)
    ensures len == 0 ==> r == Read([])
    ensures len > 0 && entry.Some? && !entry.value.deleted && entry.value.blocks != [] ==>
              var f := entry.value;
              var end := End(f.size, offset, len);
              && (r.Read? ==> r.bytes == if offset >= f.size then []
                  else Whole(f.blocks, data, |f.blocks|)[offset..end])
              && (r.Read? <==> offset >= f.size || AllServed(f.blocks, data, offset, end, |f.blocks|))
  {
    if len == 0 { return Read([]); }
    if entry.None? || entry.value.deleted { return NotFound; }
    var f := entry.value;
    var clamped := Min(SatSub(f.size, offset), len);
    if clamped == 0 { return Read([]); }
    if f.blocks == [] { return Read([]); }
    assert f.blocks[..|f.blocks|] == f.blocks;
    r := CopyRange(f.blocks, data, offset, clamped);
  }
}
