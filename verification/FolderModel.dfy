/**
  The contents of one folder's database and what each store operation does to them.

  A field stands for one class of keys: `mn` committed files, `ms` sequence to name, `mi` staged
  files, `mb` block pointers, `mr` reverse references, `bd` block data, `md` peers' sequences.  The
  two fields of the `mx` row are `maxSequence` and `nextBlockseq`.
 */
module FolderModel {
  import opened Prelude
  import opened Files
  import opened VersionVectors
  import opened StoreKeys

  const INLINE_BLOCK_THRESHOLD: nat := 4096
  const RESERVATION_N: nat := 256

  type Epoch = nat
  type Device = nat

  datatype Db = Db(
    mn: map<Name, FileInfo>,
    ms: map<nat, Name>,
    mi: map<(Epoch, Name), FileInfo>,
    mb: map<(Name, Hash), nat>,
    mr: set<(Hash, Name)>,
    bd: map<nat, Bytes>,
    md: map<Device, int>,
    maxSequence: nat,
    nextBlockseq: Option<nat>)

  function EmptyDb(): Db { Db(map[], map[], map[], map[], {}, map[], map[], 0, None) }

  // ---------------------------------------------------------------- block pointers

  /** The first block with this hash that has a pointer. */
  function FirstPointed(blocks: seq<Block>, hash: Hash): (r: Option<Block>)
    ensures r.Some? ==> r.value in blocks && r.value.hash == hash && r.value.HasPointer()
    ensures r.None? ==> forall i | 0 <= i < |blocks| :: blocks[i].hash == hash ==> !blocks[i].HasPointer()
  {
    if blocks == [] then None
    else if blocks[0].hash == hash && blocks[0].HasPointer() then Some(blocks[0])
    else FirstPointed(blocks[1..], hash)
  }

  function CarryOne(b: Block, prior: seq<Block>): Block {
    var src := FirstPointed(prior, b.hash);
    if b.HasPointer() || src.None? then b else b.(blockseq := src.value.blockseq, inlineData := src.value.inlineData)
  }

  /** Pointers of `prior` copied to the blocks that have none, matched by hash. */
  function Carry(blocks: seq<Block>, prior: seq<Block>): (r: seq<Block>)
    ensures |r| == |blocks|
  {
    seq(|blocks|, i requires 0 <= i < |blocks| => CarryOne(blocks[i], prior))
  }

  /** Blocks with this hash are given the pointer. */
  function Point(blocks: seq<Block>, hash: Hash, blockseq: Option<nat>, inlineData: Option<Bytes>): (r: seq<Block>)
    ensures |r| == |blocks|
  {
    seq(|blocks|, i requires 0 <= i < |blocks| =>
      if blocks[i].hash == hash then blocks[i].(blockseq := blockseq, inlineData := inlineData) else blocks[i])
  }

  predicate Mentions(blocks: seq<Block>, hash: Hash) { exists i :: 0 <= i < |blocks| && blocks[i].hash == hash }

  // ---------------------------------------------------------------- commits

  /** What a commit of `stored` under `name` will hold, before it gets its sequence. */
  function Carried(db: Db, name: Name, stored: FileInfo): FileInfo {
    if name in db.mn then stored.(blocks := Carry(stored.blocks, db.mn[name].blocks)) else stored
  }

  /** One atomic batch: the old sequence row goes, the entry and its new sequence row come. */
  function Commit(db: Db, name: Name, stored: FileInfo): Db {
    var stale := if name in db.mn && db.mn[name].sequence > 0 then {db.mn[name].sequence} else {};
    var seqno := db.maxSequence + 1;
    db.(mn := db.mn[name := Carried(db, name, stored).(sequence := seqno)],
        ms := (map q | q in db.ms && q as int !in stale :: db.ms[q])[seqno := name],
        maxSequence := seqno)
  }

  function PutFile(db: Db, f: WireInfo): Db { Commit(db, f.name, FromWire(f)) }

  /** The blocks a conflict copy takes over from the entry at `from`. */
  function CopyBlocks(db: Db, f: WireInfo, from: Name): seq<Block> {
    if from in db.mn then Carry(FromWire(f).blocks, db.mn[from].blocks) else FromWire(f).blocks
  }

  /** The separated blocks among them, by hash and number. */
  function Separated(blocks: seq<Block>): set<(Hash, nat)> {
    set b | b in blocks && b.blockseq.Some? && |b.hash| == HASH_LEN :: (b.hash, b.blockseq.value)
  }

  /** The commit of a conflict copy, with the blocks it has taken over and their references. */
  function CommitCopy(db: Db, f: WireInfo, blocks: seq<Block>): Db {
    var refs := set p | p in Separated(blocks) :: (p.0, f.name);
    Commit(db.(mr := db.mr + refs), f.name, FromWire(f).(blocks := blocks))
  }

  function PutFileWithCarry(db: Db, f: WireInfo, from: Name): Db { CommitCopy(db, f, CopyBlocks(db, f, from)) }

  function StageFile(db: Db, epoch: Epoch, f: WireInfo): Db { db.(mi := db.mi[(epoch, f.name) := FromWire(f)]) }

  datatype Completion = NotStaged | OtherVersion | Incomplete | Promoted(db: Db)

  /** The staged file takes the place of the committed one. */
  function PromoteStaged(db: Db, epoch: Epoch, name: Name): Db
    requires (epoch, name) in db.mi
  {
    Commit(db.(mi := db.mi - {(epoch, name)}), name, db.mi[(epoch, name)])
  }

  function CompleteFile(db: Db, epoch: Epoch, name: Name, expected: Option<Vector>): Completion {
    if (epoch, name) !in db.mi then NotStaged
    else
      var staged := db.mi[(epoch, name)];
      if staged.version != expected then OtherVersion
      else if !Complete(Carried(db, name, staged).blocks) then Incomplete
      else Promoted(PromoteStaged(db, epoch, name))
  }

  function GcInbox(db: Db, current: Epoch): Db {
    db.(mi := map k | k in db.mi && k.0 >= current :: db.mi[k])
  }

  // ---------------------------------------------------------------- blocks

  /** Where the entry of a name is updated: staged entries come before committed ones. */
  datatype Slot = Staged(epoch: Epoch) | Committed

  function FindEntry(db: Db, epoch: Option<Epoch>, name: Name): (r: Option<Slot>)
    ensures r == Some(Committed) ==> name in db.mn
    ensures r.Some? && r.value.Staged? ==> (r.value.epoch, name) in db.mi
  {
    if epoch.Some? && (epoch.value, name) in db.mi then Some(Staged(epoch.value))
    else if name in db.mn then Some(Committed)
    else None
  }

  predicate HasSlot(db: Db, slot: Slot, name: Name) {
    match slot case Staged(e) => (e, name) in db.mi case Committed => name in db.mn
  }

  function Entry(db: Db, slot: Slot, name: Name): FileInfo
    requires HasSlot(db, slot, name)
  {
    match slot case Staged(e) => db.mi[(e, name)] case Committed => db.mn[name]
  }

  function WithEntry(db: Db, slot: Slot, name: Name, f: FileInfo): Db {
    match slot
    case Staged(e) => db.(mi := db.mi[(e, name) := f])
    case Committed => db.(mn := db.mn[name := f])
  }

  /** The pointer of `hash` in the entry at `slot` is set. */
  function Link(db: Db, slot: Slot, name: Name, hash: Hash, blockseq: Option<nat>, inlineData: Option<Bytes>): Db
    requires HasSlot(db, slot, name)
  {
    var f := Entry(db, slot, name);
    WithEntry(db, slot, name, f.(blocks := Point(f.blocks, hash, blockseq, inlineData)))
  }

  predicate CanLink(db: Db, epoch: Option<Epoch>, name: Name, hash: Hash) {
    var slot := FindEntry(db, epoch, name);
    slot.Some? && Mentions(Entry(db, slot.value, name).blocks, hash)
  }

  function StoreInline(db: Db, epoch: Option<Epoch>, name: Name, hash: Hash, data: Bytes): Db
    requires CanLink(db, epoch, name, hash)
  {
    Link(db, FindEntry(db, epoch, name).value, name, hash, None, Some(data))
  }

  /** A directory in which the data of `hash` is reachable under the number `seqno`. */
  predicate Holds(db: Db, hash: Hash, dir: Name, seqno: nat) {
    && (exists p :: p in db.mr && p.0 == hash && Dirname(p.1) == dir)
    && (dir, hash) in db.mb && db.mb[(dir, hash)] == seqno && seqno in db.bd
  }

  /** The entry takes a block that directory `dir` already holds. */
  function ShareBlock(db: Db, epoch: Option<Epoch>, name: Name, hash: Hash, dir: Name, seqno: nat): Db
    requires CanLink(db, epoch, name, hash)
  {
    var mb := if dir != Dirname(name) then db.mb[(Dirname(name), hash) := seqno] else db.mb;
    Link(db.(mb := mb, mr := db.mr + {(hash, name)}), FindEntry(db, epoch, name).value, name, hash, Some(seqno), None)
  }

  /** The entry takes a block whose data is written under the new number `seqno`. */
  function NewBlock(db: Db, epoch: Option<Epoch>, name: Name, hash: Hash, data: Bytes, seqno: nat): Db
    requires CanLink(db, epoch, name, hash)
  {
    var with := db.(bd := db.bd[seqno := data], mb := db.mb[(Dirname(name), hash) := seqno],
                    mr := db.mr + {(hash, name)});
    Link(with, FindEntry(db, epoch, name).value, name, hash, Some(seqno), None)
  }

  // ---------------------------------------------------------------- reads

  datatype ReadResult = Data(bytes: Bytes) | NotFound | BadHash | Corrupt

  /** Inline bytes first, then the data row. */
  function Resolve(bd: map<nat, Bytes>, b: Block): ReadResult {
    if b.inlineData.Some? then Data(b.inlineData.value)
    else if b.blockseq.None? then NotFound
    else if b.blockseq.value < MIN_BLOCK_SEQ then Corrupt
    else if b.blockseq.value in bd then Data(bd[b.blockseq.value])
    else NotFound
  }

  /** The first block with this hash that resolves. */
  function ReadFrom(bd: map<nat, Bytes>, blocks: seq<Block>, hash: Hash): ReadResult {
    if blocks == [] then NotFound
    else if blocks[0].hash == hash && !Resolve(bd, blocks[0]).NotFound? then Resolve(bd, blocks[0])
    else ReadFrom(bd, blocks[1..], hash)
  }

  function ReadBlock(db: Db, name: Name, hash: Hash): ReadResult {
    if |hash| != HASH_LEN then BadHash
    else if name !in db.mn then NotFound
    else ReadFrom(db.bd, db.mn[name].blocks, hash)
  }

  /** The files that the rows `keys` of `ms` lead to, in key order. */
  function FilesAt(db: Db, keys: set<nat>): seq<(Name, FileInfo)>
    requires keys <= db.ms.Keys
    decreases keys
  {
    if keys == {} then []
    else
      var q := Least(keys);
      (if db.ms[q] in db.mn then [(db.ms[q], db.mn[db.ms[q]])] else []) + FilesAt(db, keys - {q})
  }

  function SeqsAbove(db: Db, since: int): set<nat> { set q | q in db.ms && q > since }

  function FilesSince(db: Db, since: int): seq<(Name, FileInfo)> { FilesAt(db, SeqsAbove(db, since)) }

  // ---------------------------------------------------------------- block numbers

  /** Numbers reserved in memory. */
  datatype Range = Range(next: nat, end: nat)

  datatype Allocation = Allocation(seqno: nat, range: Range, nextBlockseq: Option<nat>, refilled: bool)

  function RefillBase(nextBlockseq: Option<nat>): nat {
    if nextBlockseq.Some? && nextBlockseq.value > MIN_BLOCK_SEQ then nextBlockseq.value else MIN_BLOCK_SEQ
  }

  function Allocate(range: Range, nextBlockseq: Option<nat>): Allocation {
    if range.next < range.end then Allocation(range.next, range.(next := range.next + 1), nextBlockseq, false)
    else
      var base := RefillBase(nextBlockseq);
      Allocation(base, Range(base + 1, base + RESERVATION_N), Some(base + RESERVATION_N), true)
  }

  // ---------------------------------------------------------------- the compaction filter

  datatype Row = DataRow(seqno: nat) | PointerRow(dir: Name, hash: Hash) | ReverseRow(hash: Hash, name: Name)
               | InboxRow(epoch: Epoch, name: Name) | SeqRow(seqno: nat) | FileRow(name: Name)

  /** What one compaction job knows when it judges a row. */
  datatype Filter = Filter(hashes: set<Hash>, seqs: set<nat>, epoch: Epoch, floor: Option<int>)

  /** No pointer of the entry is malformed; otherwise a collector's scan gives up. */
  predicate Sane(f: FileInfo) {
    forall b | b in f.blocks && b.blockseq.Some? :: |b.hash| == HASH_LEN && b.blockseq.value >= MIN_BLOCK_SEQ
  }

  /** The filter's rules; `entry` is the value of a committed file's row. */
  predicate Judged(f: Filter, row: Row, entry: Option<FileInfo>) {
    match row
    case DataRow(s) => s !in f.seqs
    case PointerRow(_, h) => h !in f.hashes
    case ReverseRow(h, _) => h !in f.hashes
    case InboxRow(e, _) => e < f.epoch
    case SeqRow(q) => f.floor.Some? && q < f.floor.value
    case FileRow(_) => f.floor.Some? && entry.Some? && entry.value.deleted && entry.value.sequence < f.floor.value
  }

  /** The filter prunes the row as it stands in `db`. */
  predicate Prunes(f: Filter, db: Db, row: Row) {
    Judged(f, row, if row.FileRow? && row.name in db.mn then Some(db.mn[row.name]) else None)
  }

  function WithoutRow(db: Db, row: Row): Db {
    match row
    case DataRow(s) => db.(bd := db.bd - {s})
    case PointerRow(d, h) => db.(mb := db.mb - {(d, h)})
    case ReverseRow(h, n) => db.(mr := db.mr - {(h, n)})
    case InboxRow(e, n) => db.(mi := db.mi - {(e, n)})
    case SeqRow(q) => db.(ms := db.ms - {q})
    case FileRow(n) => db.(mn := db.mn - {n})
  }

  function Pruned(f: Filter, db: Db, row: Row): Db { if Prunes(f, db, row) then WithoutRow(db, row) else db }

  /** The smallest sequence any peer has reached; `None` without peers or while one is at 0. */
  function PeerFloor(md: map<Device, int>): (r: Option<int>)
    ensures r.Some? ==> (exists d :: d in md && md[d] == r.value) && forall d | d in md :: r.value <= md[d]
    ensures r.None? <==> md.Keys == {} || ((exists d :: d in md && md[d] == 0) && forall d | d in md :: 0 <= md[d])
  {
    if md.Keys == {} then None
    else
      var low := LowestOf(md, md.Keys);
      if low == 0 then None else Some(low)
  }

  function LowestOf(md: map<Device, int>, ks: set<Device>): (r: int)
    requires ks != {} && ks <= md.Keys
    ensures (exists k :: k in ks && md[k] == r) && forall k | k in ks :: r <= md[k]
    decreases ks
  {
    var k := Least(ks);
    if ks == {k} then md[k]
    else
      var rest := LowestOf(md, ks - {k});
      if rest < md[k] then rest else md[k]
  }
}
