/**
  Key encodings of the per-folder database: round trips, disjoint classes, order, and what the
  prefix scans cover.  Names are byte strings here; that they are UTF-8 is not modelled.
 */
module StoreKeys {
  import opened Prelude
  import opened Numerals
  import opened Files
  import Base32Epoch

  type Key = Bytes

  const M: Byte := 109
  const MIN_BLOCK_SEQ: nat := 1024
  const U64_LIMIT: nat := 0x1_0000_0000_0000_0000

  datatype Tag = BlockData | Pointer | Reverse | File | Seq | Inbox | Device | Index

  function TagBytes(t: Tag): (b: Bytes)
    ensures |b| == 2
  {
    match t
    case BlockData => [98, 100]
    case Pointer => [M, 98]
    case Reverse => [M, 114]
    case File => [M, 110]
    case Seq => [M, 115]
    case Inbox => [M, 105]
    case Device => [M, 100]
    case Index => [M, 120]
  }

  /** The class of a key is its first two bytes. */
  predicate InClass(k: Key, t: Tag) { TagBytes(t) <= k }

  lemma ClassesDisjoint(k: Key, t: Tag, u: Tag)
    requires InClass(k, t) && InClass(k, u)
    ensures t == u
  {
    assert k[..2] == TagBytes(t) && k[..2] == TagBytes(u);
    assert TagBytes(t)[0] == TagBytes(u)[0] && TagBytes(t)[1] == TagBytes(u)[1];
  }

  // ---------------------------------------------------------------- names inside keys

  /** What follows the last slash. */
  function Basename(name: Name): Name {
    if SLASH in name then (DirnameSplit(name); name[|Dirname(name)| + 1..]) else name
  }

  function NamePart(name: Name): Bytes { Dirname(name) + [SLASH, SLASH] + Basename(name) }

  /** The rightmost double slash at or before `i`. */
  function LastDouble(s: Bytes, i: int): (r: Option<nat>)
    requires i < |s| - 1
    ensures r.Some? ==> r.value + 1 < |s| && s[r.value] == SLASH && s[r.value + 1] == SLASH
  {
    if i < 0 then None else if s[i] == SLASH && s[i + 1] == SLASH then Some(i) else LastDouble(s, i - 1)
  }

  function ParseNamePart(s: Bytes): Option<Name> {
    match LastDouble(s, |s| - 2)
    case None => None
    case Some(i) => Some(if i == 0 then s[2..] else s[..i] + [SLASH] + s[i + 2..])
  }

  lemma {:induction false} LastDoubleAt(s: Bytes, i: int, k: nat)
    requires k <= i < |s| - 1 && s[k] == SLASH && s[k + 1] == SLASH
    requires forall j | k < j <= i :: !(s[j] == SLASH && s[j + 1] == SLASH)
    ensures LastDouble(s, i) == Some(k)
    decreases i
  {
    if i > k { LastDoubleAt(s, i - 1, k); }
  }

  lemma NameParts(name: Name)
    requires Tidy(name)
    ensures Basename(name) != [] && SLASH !in Basename(name)
    ensures name == if Dirname(name) == [] then Basename(name) else Dirname(name) + [SLASH] + Basename(name)
    ensures Dirname(name) != [] ==> Dirname(name)[0] != SLASH
  {
    DirnameSplit(name);
    RootNames(name);
    if SLASH in name {
      var n := |Dirname(name)|;
      assert name == name[..n] + [name[n]] + name[n + 1..];
      assert name[|name| - 1] != SLASH;
    }
  }

  lemma NamePartRoundTrip(name: Name)
    requires Tidy(name)
    ensures ParseNamePart(NamePart(name)) == Some(name)
  {
    var dir, base, s := Dirname(name), Basename(name), NamePart(name);
    NameParts(name);
    forall j | |dir| < j <= |s| - 2 ensures !(s[j] == SLASH && s[j + 1] == SLASH) {
      assert s[j + 1] == base[j + 1 - |dir| - 2] && s[j + 1] in base;
    }
    LastDoubleAt(s, |s| - 2, |dir|);
    assert s[..|dir|] == dir && s[|dir| + 2..] == base;
  }

  // ---------------------------------------------------------------- numbers

  function BigEndian(v: nat): (b: Bytes)
    ensures |b| == 8
  {
    var d := Digits(256, 8, v);
    seq(8, i requires 0 <= i < 8 => d[i])
  }

  lemma PowIs()
    ensures Pow(256, 8) == U64_LIMIT
  {
    assert Pow(256, 2) == 0x1_0000;
    assert Pow(256, 4) == 0x1_0000_0000;
    assert Pow(256, 6) == 0x1_0000_0000_0000;
  }

  lemma BigEndianValue(v: nat)
    requires v < U64_LIMIT
    ensures Value(256, BigEndian(v)) == v
  {
    PowIs();
    assert BigEndian(v) == Digits(256, 8, v);
    ValueOfDigits(256, 8, v);
  }

  lemma BigEndianOrder(u: nat, v: nat)
    requires u < U64_LIMIT && v < U64_LIMIT
    ensures LexLess(BigEndian(u), BigEndian(v)) <==> u < v
  {
    PowIs();
    assert BigEndian(u) == Digits(256, 8, u) && BigEndian(v) == Digits(256, 8, v);
    DigitsOrder(256, 8, u, v);
  }

  function EpochBytes(e: nat): (b: Bytes)
    ensures |b| == 8
  {
    var s := Base32Epoch.Encode(e);
    seq(8, i requires 0 <= i < 8 => assert s[i] in Base32Epoch.ALPHABET; s[i] as int)
  }

  function AsText(b: Bytes): (s: string)
    ensures |s| == |b|
  {
    seq(|b|, i requires 0 <= i < |b| => b[i] as char)
  }

  // ---------------------------------------------------------------- the keys

  function FileKey(name: Name): Key { TagBytes(File) + NamePart(name) }

  function ParseFileKey(k: Key): Option<Name> { if InClass(k, File) then ParseNamePart(k[2..]) else None }

  function SeqKey(seqno: nat): Key { TagBytes(Seq) + BigEndian(seqno) }

  function ParseSeqKey(k: Key): Option<nat> {
    if |k| == 10 && InClass(k, Seq) then Some(Value(256, k[2..])) else None
  }

  function BlockDataKey(seqno: nat): Key { TagBytes(BlockData) + BigEndian(seqno) }

  function ParseBlockDataKey(k: Key): Option<nat> {
    if |k| == 10 && InClass(k, BlockData) && Value(256, k[2..]) >= MIN_BLOCK_SEQ then Some(Value(256, k[2..])) else None
  }

  function PointerKey(dir: Name, hash: Hash): Key { TagBytes(Pointer) + dir + [SLASH] + hash }

  function ParsePointerKey(k: Key): Option<Hash> {
    if |k| >= 35 && InClass(k, Pointer) && k[|k| - 33] == SLASH then Some(k[|k| - 32..]) else None
  }

  function ReversePrefix(hash: Hash): Key { TagBytes(Reverse) + hash + [SLASH] }

  function ReverseKey(hash: Hash, name: Name): Key { ReversePrefix(hash) + NamePart(name) }

  function ParseReverseKey(k: Key): Option<(Hash, Name)> {
    if |k| < 35 || !InClass(k, Reverse) || k[34] != SLASH then None
    else
      match ParseNamePart(k[35..])
      case None => None
      case Some(name) => Some((k[2..34], name))
  }

  function InboxKey(epoch: nat, name: Name): Key { TagBytes(Inbox) + EpochBytes(epoch) + [SLASH] + NamePart(name) }

  function ParseInboxKey(k: Key): Option<(nat, Name)> {
    if |k| < 11 || !InClass(k, Inbox) then None
    else
      var epoch := Base32Epoch.Decode(AsText(k[2..10]));
      if epoch.None? || k[10] != SLASH then None
      else
        match ParseNamePart(k[11..])
        case None => None
        case Some(name) => Some((epoch.value, name))
  }

  // ---------------------------------------------------------------- round trips

  lemma FileKeyRoundTrip(name: Name)
    requires Tidy(name)
    ensures ParseFileKey(FileKey(name)) == Some(name)
  {
    NamePartRoundTrip(name);
    assert FileKey(name)[2..] == NamePart(name);
  }

  lemma SeqKeyRoundTrip(seqno: nat)
    requires seqno < U64_LIMIT
    ensures ParseSeqKey(SeqKey(seqno)) == Some(seqno)
  {
    BigEndianValue(seqno);
    assert SeqKey(seqno)[2..] == BigEndian(seqno);
  }

  /** Data keys are read back exactly from the lowest valid block number on. */
  lemma BlockDataKeyRoundTrip(seqno: nat)
    requires seqno < U64_LIMIT
    ensures ParseBlockDataKey(BlockDataKey(seqno)) == if seqno >= MIN_BLOCK_SEQ then Some(seqno) else None
  {
    BigEndianValue(seqno);
    assert BlockDataKey(seqno)[2..] == BigEndian(seqno);
  }

  lemma PointerKeyRoundTrip(dir: Name, hash: Hash)
    requires |hash| == HASH_LEN
    ensures ParsePointerKey(PointerKey(dir, hash)) == Some(hash)
  {
    var k := PointerKey(dir, hash);
    assert k[|k| - 33] == SLASH && k[|k| - 32..] == hash;
  }

  lemma ReverseKeyRoundTrip(hash: Hash, name: Name)
    requires |hash| == HASH_LEN && Tidy(name)
    ensures ParseReverseKey(ReverseKey(hash, name)) == Some((hash, name))
  {
    var k := ReverseKey(hash, name);
    NamePartRoundTrip(name);
    assert k[35..] == NamePart(name) && k[2..34] == hash && k[34] == SLASH;
  }

  lemma EpochBytesDecode(e: nat)
    requires e <= Base32Epoch.MAX_VAL
    ensures Base32Epoch.Decode(AsText(EpochBytes(e))) == Some(e)
  {
    assert AsText(EpochBytes(e)) == Base32Epoch.Encode(e);
    Base32Epoch.RoundTrip(e);
  }

  lemma InboxKeyRoundTrip(e: nat, name: Name)
    requires e <= Base32Epoch.MAX_VAL && Tidy(name)
    ensures ParseInboxKey(InboxKey(e, name)) == Some((e, name))
  {
    var k := InboxKey(e, name);
    NamePartRoundTrip(name);
    EpochBytesDecode(e);
    assert k[11..] == NamePart(name) && k[2..10] == EpochBytes(e) && k[10] == SLASH;
  }

  // ---------------------------------------------------------------- scans

  lemma CommonPrefixOrder(p: Bytes, a: Bytes, b: Bytes)
    requires |a| == |b|
    ensures LexLess(p + a, p + b) <==> LexLess(a, b)
  {
    if LexLess(a, b) {
      var k :| DiffersAt(a, b, k) && a[k] < b[k];
      assert (p + a)[..|p| + k] == p + a[..k] && (p + b)[..|p| + k] == p + b[..k];
      assert DiffersAt(p + a, p + b, |p| + k) && (p + a)[|p| + k] < (p + b)[|p| + k];
    }
    if LexLess(p + a, p + b) {
      var j :| DiffersAt(p + a, p + b, j) && (p + a)[j] < (p + b)[j];
      assert j >= |p|;
      var k := j - |p|;
      assert (p + a)[..j] == p + a[..k] && (p + b)[..j] == p + b[..k];
      assert a[..k] == (p + a[..k])[|p|..] && b[..k] == (p + b[..k])[|p|..];
      assert DiffersAt(a, b, k) && a[k] < b[k];
    }
  }

  /** The end of a scan over all sequence keys. */
  const SEQ_SCAN_END: Key := [M, 116]

  /**
    A scan from the key after `since` up to the end bound meets exactly the sequence keys above
    `since`, and meets them in numeric order.
   */
  lemma SeqScan(since: nat, seqno: nat, later: nat)
    requires since + 1 < U64_LIMIT && seqno < U64_LIMIT && later < U64_LIMIT
    ensures !LexLess(SeqKey(seqno), SeqKey(since + 1)) && LexLess(SeqKey(seqno), SEQ_SCAN_END) <==> seqno > since
    ensures LexLess(SeqKey(seqno), SeqKey(later)) <==> seqno < later
  {
    CommonPrefixOrder(TagBytes(Seq), BigEndian(seqno), BigEndian(since + 1));
    CommonPrefixOrder(TagBytes(Seq), BigEndian(seqno), BigEndian(later));
    BigEndianOrder(seqno, since + 1);
    BigEndianOrder(seqno, later);
    assert SeqKey(seqno)[..1] == SEQ_SCAN_END[..1] && DiffersAt(SeqKey(seqno), SEQ_SCAN_END, 1);
  }

  /** The scan prefix of a hash matches exactly the references of that hash. */
  lemma ReverseScan(hash: Hash, other: Hash, name: Name)
    requires |hash| == HASH_LEN && |other| == HASH_LEN
    ensures ReversePrefix(hash) <= ReverseKey(other, name) <==> hash == other
  {
    var p, k := ReversePrefix(hash), ReverseKey(other, name);
    assert k[..35] == ReversePrefix(other);
    assert p[2..34] == hash && ReversePrefix(other)[2..34] == other;
  }

  /** The prefix under which the collector looks for staged files. */
  function InboxScanPrefix(epoch: nat): Key { InboxKey(epoch, []) }

  predicate InboxCovers(epoch: nat, name: Name) { InboxScanPrefix(epoch) <= InboxKey(epoch, name) }

  /** The collector's inbox scan sees a staged file exactly when its name has no directory. */
  lemma InboxScan(epoch: nat, name: Name)
    requires Tidy(name)
    ensures InboxCovers(epoch, name) <==> Dirname(name) == []
  {
    var p, k, dir := InboxScanPrefix(epoch), InboxKey(epoch, name), Dirname(name);
    NameParts(name);
    assert Dirname([]) == [] && Basename([]) == [];
    assert |p| == 13 && p[11] == SLASH && p[12] == SLASH;
    assert p == TagBytes(Inbox) + EpochBytes(epoch) + [SLASH, SLASH, SLASH];
    if dir == [] {
      assert k == p + Basename(name);
    } else {
      assert k[11] == dir[0];
    }
  }

  /** Inbox keys of different epochs never share a scan. */
  lemma InboxEpochs(e: nat, other: nat, name: Name)
    requires e <= Base32Epoch.MAX_VAL && other <= Base32Epoch.MAX_VAL
    requires InboxScanPrefix(e) <= InboxKey(other, name)
    ensures e == other
  {
    hide EpochBytes, NamePart;
    var p, k := InboxScanPrefix(e), InboxKey(other, name);
    assert p[2..10] == EpochBytes(e);
    assert k[2..10] == EpochBytes(other);
    assert p == k[..|p|];
    assert EpochBytes(e) == EpochBytes(other);
    EpochBytesDecode(e);
    EpochBytesDecode(other);
  }
}
