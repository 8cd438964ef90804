/** Version vectors: the two-cursor comparison, counter totals and the conflict winner. */
module VersionVectors {
  import opened Prelude
  import opened Numerals

  datatype Counter = Counter(id: nat, value: nat)

  type Vector = seq<Counter>

  datatype Order = Greater | Less | Equal | Concurrent

  predicate UniqueIds(v: Vector) { forall i, j | 0 <= i < j < |v| :: v[i].id != v[j].id }

  /** A counter that is not listed is zero. */
  function Lookup(v: Vector, id: nat): nat {
    if v == [] then 0 else if v[0].id == id then v[0].value else Lookup(v[1..], id)
  }

  /** Some counter of `a` is larger than in `b`. */
  predicate Exceeds(a: Vector, b: Vector) { exists i :: 0 <= i < |a| && a[i].value > Lookup(b, a[i].id) }

  function Verdict(aAhead: bool, bAhead: bool): Order {
    if aAhead then (if bAhead then Concurrent else Greater) else (if bAhead then Less else Equal)
  }

  /** The comparison by definition; `None` for a vector that lists an id twice. */
  function CompareSpec(a: Vector, b: Vector): Option<Order> {
    if !UniqueIds(a) || !UniqueIds(b) then None else Some(Verdict(Exceeds(a, b), Exceeds(b, a)))
  }

  // ---------------------------------------------------------------- sorting by id

  predicate Ascending(v: Vector) { forall i, j | 0 <= i < j < |v| :: v[i].id <= v[j].id }

  predicate StrictlyAscending(v: Vector) { forall i, j | 0 <= i < j < |v| :: v[i].id < v[j].id }

  /** Stable insertion of the counter `c` into a sorted vector. */
  function Insert(c: Counter, v: Vector): (r: Vector)
    ensures multiset(r) == multiset(v) + multiset{c} && |r| == |v| + 1
  {
    if v == [] then [c]
    else if c.id <= v[0].id then
      assert multiset([c] + v) == multiset{c} + multiset(v);
      [c] + v
    else
      assert v == [v[0]] + v[1..];
      [v[0]] + Insert(c, v[1..])
  }

  function SortById(v: Vector): (r: Vector)
    ensures multiset(r) == multiset(v) && |r| == |v|
  {
    if v == [] then []
    else
      assert v == [v[0]] + v[1..];
      Insert(v[0], SortById(v[1..]))
  }

  lemma InMultiset(v: Vector, x: Counter)
    ensures x in v <==> multiset(v)[x] > 0
  {
  }

  lemma {:induction false} InsertAscending(c: Counter, v: Vector)
    requires Ascending(v)
    ensures Ascending(Insert(c, v))
  {
    if v != [] && c.id > v[0].id {
      InsertAscending(c, v[1..]);
      var rest := Insert(c, v[1..]);
      forall j | 0 <= j < |rest| ensures v[0].id <= rest[j].id {
        InMultiset(rest, rest[j]);
        assert rest[j] in multiset(v[1..]) + multiset{c};
        assert rest[j] == c || rest[j] in v[1..];
      }
    }
  }

  lemma {:induction false} SortAscending(v: Vector)
    ensures Ascending(SortById(v))
  {
    if v != [] {
      SortAscending(v[1..]);
      InsertAscending(v[0], SortById(v[1..]));
    }
  }

  ghost predicate SameCounters(v: Vector, w: Vector) { forall x :: x in v <==> x in w }

  lemma SortSame(v: Vector)
    ensures SameCounters(SortById(v), v)
  {
    forall x ensures x in SortById(v) <==> x in v {
      InMultiset(v, x);
      InMultiset(SortById(v), x);
    }
  }

  function Count(v: Vector, id: nat): nat {
    if v == [] then 0 else (if v[0].id == id then 1 else 0) + Count(v[1..], id)
  }

  lemma {:induction false} CountAppears(v: Vector, id: nat)
    ensures Count(v, id) > 0 <==> exists i :: 0 <= i < |v| && v[i].id == id
  {
    if v != [] {
      CountAppears(v[1..], id);
      if i :| 0 <= i < |v| && v[i].id == id {
        if i > 0 { assert v[1..][i - 1].id == id; }
      }
      if Count(v, id) > 0 && v[0].id != id {
        var i :| 0 <= i < |v[1..]| && v[1..][i].id == id;
        assert v[i + 1].id == id;
      }
    }
  }

  lemma {:induction false} CountInsert(c: Counter, v: Vector, id: nat)
    ensures Count(Insert(c, v), id) == Count(v, id) + (if c.id == id then 1 else 0)
  {
    if v != [] {
      if c.id <= v[0].id {
        assert ([c] + v)[1..] == v;
      } else {
        CountInsert(c, v[1..], id);
        assert ([v[0]] + Insert(c, v[1..]))[1..] == Insert(c, v[1..]);
      }
    }
  }

  lemma {:induction false} CountSort(v: Vector, id: nat)
    ensures Count(SortById(v), id) == Count(v, id)
  {
    if v != [] {
      CountSort(v[1..], id);
      CountInsert(v[0], SortById(v[1..]), id);
    }
  }

  lemma {:induction false} UniqueCounts(v: Vector, id: nat)
    requires UniqueIds(v)
    ensures Count(v, id) <= 1
  {
    if v != [] {
      UniqueCounts(v[1..], id);
      CountAppears(v[1..], id);
    }
  }

  lemma {:induction false} RepeatCounts(v: Vector, i: nat, j: nat)
    requires i < j < |v| && v[i].id == v[j].id
    ensures Count(v, v[i].id) >= 2
  {
    if i == 0 {
      CountAppears(v[1..], v[0].id);
      assert v[1..][j - 1].id == v[0].id;
    } else {
      RepeatCounts(v[1..], i - 1, j - 1);
    }
  }

  /** Sorting keeps ids unique, both ways. */
  lemma SortUnique(v: Vector)
    ensures UniqueIds(SortById(v)) <==> UniqueIds(v)
  {
    var w := SortById(v);
    if UniqueIds(v) && !UniqueIds(w) {
      var i, j :| 0 <= i < j < |w| && w[i].id == w[j].id;
      RepeatCounts(w, i, j);
      CountSort(v, w[i].id);
      UniqueCounts(v, w[i].id);
    }
    if UniqueIds(w) && !UniqueIds(v) {
      var i, j :| 0 <= i < j < |v| && v[i].id == v[j].id;
      RepeatCounts(v, i, j);
      CountSort(v, v[i].id);
      UniqueCounts(w, v[i].id);
    }
  }

  lemma {:induction false} LookupIs(v: Vector, c: Counter)
    requires UniqueIds(v) && c in v
    ensures Lookup(v, c.id) == c.value
  {
    if v[0] != c {
      assert c in v[1..];
      var i :| 0 <= i < |v[1..]| && v[1..][i] == c;
      assert v[i + 1] == c && v[0].id != c.id;
      LookupIs(v[1..], c);
    }
  }

  lemma {:induction false} LookupAbsent(v: Vector, id: nat)
    requires forall i | 0 <= i < |v| :: v[i].id != id
    ensures Lookup(v, id) == 0
  {
    if v != [] { LookupAbsent(v[1..], id); }
  }

  /** Vectors with the same unique counters have the same values. */
  lemma SameLookup(v: Vector, w: Vector, id: nat)
    requires UniqueIds(v) && UniqueIds(w) && SameCounters(v, w)
    ensures Lookup(v, id) == Lookup(w, id)
  {
    if i :| 0 <= i < |v| && v[i].id == id {
      assert v[i] in v && v[i] in w;
      LookupIs(v, v[i]);
      LookupIs(w, v[i]);
    } else {
      LookupAbsent(v, id);
      forall i | 0 <= i < |w| ensures w[i].id != id {
        assert w[i] in w && w[i] in v;
        var k :| 0 <= k < |v| && v[k] == w[i];
      }
      LookupAbsent(w, id);
    }
  }

  lemma SameExceeds(a: Vector, a': Vector, b: Vector, b': Vector)
    requires UniqueIds(a) && UniqueIds(a') && SameCounters(a, a')
    requires UniqueIds(b) && UniqueIds(b') && SameCounters(b, b')
    ensures Exceeds(a, b) ==> Exceeds(a', b')
  {
    if i :| 0 <= i < |a| && a[i].value > Lookup(b, a[i].id) {
      assert a[i] in a && a[i] in a';
      var k :| 0 <= k < |a'| && a'[k] == a[i];
      SameLookup(b, b', a[i].id);
    }
  }

  method SortedUnique(v: Vector) returns (r: Option<Vector>)
    ensures r.Some? <==> UniqueIds(v)
    ensures r.Some? ==> StrictlyAscending(r.value) && SameCounters(r.value, v)
  {
    var sorted := SortById(v);
    SortAscending(v);
    SortSame(v);
    SortUnique(v);
    for i := 0 to |sorted| - (if |sorted| > 0 then 1 else 0)
      invariant forall k | 0 <= k < i :: sorted[k].id != sorted[k + 1].id
    {
      if sorted[i].id == sorted[i + 1].id {
        return None;
      }
    }
    forall i, j | 0 <= i < j < |sorted| ensures sorted[i].id < sorted[j].id {
      assert sorted[i].id <= sorted[i + 1].id <= sorted[j].id;
    }
    r := Some(sorted);
  }

  // ---------------------------------------------------------------- the two-cursor comparison

  /** A counter of the first `n` entries of `a` is larger than in `b`. */
  predicate ExceedsUpTo(a: Vector, b: Vector, n: nat)
    requires n <= |a|
  {
    exists i :: 0 <= i < n && a[i].value > Lookup(b, a[i].id)
  }

  /** The entry of `a` under the cursor is not listed in `b` at all. */
  lemma SkippedIsZero(a: Vector, ai: nat, b: Vector, bi: nat)
    requires StrictlyAscending(b) && ai < |a| && bi <= |b| && (CursorsApart(a, ai, b, bi) || CursorsApart(b, bi, a, ai))
    requires bi < |b| ==> a[ai].id < b[bi].id
    ensures Lookup(b, a[ai].id) == 0
  {
    forall k | 0 <= k < |b| ensures b[k].id != a[ai].id {
      if k > bi { assert b[bi].id < b[k].id; }
    }
    LookupAbsent(b, a[ai].id);
  }

  /** The cursors have passed exactly the ids below every id still ahead of them. */
  predicate CursorsApart(a: Vector, ai: nat, b: Vector, bi: nat)
    requires ai <= |a| && bi <= |b|
  {
    && (ai < |a| ==> forall k | 0 <= k < bi :: b[k].id < a[ai].id)
    && (bi < |b| ==> forall k | 0 <= k < ai :: a[k].id < b[bi].id)
  }

  lemma CursorsStart(a: Vector, b: Vector)
    ensures CursorsApart(a, 0, b, 0)
  {
  }

  /** Moving past the smaller id, or past both equal ids, keeps the cursors apart. */
  lemma CursorsMove(a: Vector, ai: nat, b: Vector, bi: nat)
    requires StrictlyAscending(a) && StrictlyAscending(b) && ai <= |a| && bi <= |b| && CursorsApart(a, ai, b, bi)
    ensures ai < |a| && (bi < |b| ==> a[ai].id < b[bi].id) ==> CursorsApart(a, ai + 1, b, bi)
    ensures bi < |b| && (ai < |a| ==> b[bi].id < a[ai].id) ==> CursorsApart(a, ai, b, bi + 1)
    ensures ai < |a| && bi < |b| && a[ai].id == b[bi].id ==> CursorsApart(a, ai + 1, b, bi + 1)
  {
  }

  method MergeCompare(a: Vector, b: Vector) returns (r: Order)
    requires StrictlyAscending(a) && StrictlyAscending(b)
    ensures r == Verdict(Exceeds(a, b), Exceeds(b, a))
  {
    hide Lookup, CursorsApart;
    var aDominated, bDominated := false, false;
    var ai, bi := 0, 0;
    CursorsStart(a, b);
    while ai < |a| && bi < |b|
      invariant 0 <= ai <= |a| && 0 <= bi <= |b| && CursorsApart(a, ai, b, bi)
      invariant aDominated == ExceedsUpTo(a, b, ai) && bDominated == ExceedsUpTo(b, a, bi)
      decreases |a| - ai + |b| - bi
    {
      var ac, bc := a[ai], b[bi];
      CursorsMove(a, ai, b, bi);
      if ac.id == bc.id {
        LookupIs(a, ac);
        LookupIs(b, bc);
        if ac.value > bc.value {
          aDominated := true;
        } else if ac.value < bc.value {
          bDominated := true;
        }
        ai, bi := ai + 1, bi + 1;
      } else if ac.id < bc.id {
        SkippedIsZero(a, ai, b, bi);
        if ac.value > 0 {
          aDominated := true;
        }
        ai := ai + 1;
      } else {
        SkippedIsZero(b, bi, a, ai);
        if bc.value > 0 {
          bDominated := true;
        }
        bi := bi + 1;
      }
    }
    for k := ai to |a|
      invariant CursorsApart(a, k, b, bi) && aDominated == ExceedsUpTo(a, b, k)
    {
      SkippedIsZero(a, k, b, bi);
      CursorsMove(a, k, b, bi);
      if a[k].value > 0 {
        aDominated := true;
      }
    }
    assert aDominated == ExceedsUpTo(a, b, |a|);
    for k := bi to |b|
      invariant CursorsApart(a, ai, b, k) && bDominated == ExceedsUpTo(b, a, k)
    {
      SkippedIsZero(b, k, a, ai);
      CursorsMove(a, ai, b, k);
      if b[k].value > 0 {
        bDominated := true;
      }
    }
    r := Verdict(aDominated, bDominated);
  }

  /** Comparison of two vectors in any order; `None` when an id is listed twice. */
  method Compare(a: Vector, b: Vector) returns (r: Option<Order>)
    ensures r == CompareSpec(a, b)
  {
    var aSorted := SortedUnique(a);
    if aSorted.None? { return None; }
    var bSorted := SortedUnique(b);
    if bSorted.None? { return None; }
    var order := MergeCompare(aSorted.value, bSorted.value);
    SameExceeds(a, aSorted.value, b, bSorted.value);
    SameExceeds(aSorted.value, a, bSorted.value, b);
    SameExceeds(b, bSorted.value, a, aSorted.value);
    SameExceeds(bSorted.value, b, aSorted.value, a);
    r := Some(order);
  }

  // ---------------------------------------------------------------- the order

  /** Pointwise comparison with missing counters taken as zero. */
  lemma ExceedsPointwise(a: Vector, b: Vector)
    requires UniqueIds(a)
    ensures Exceeds(a, b) <==> exists id: nat :: Lookup(a, id) > Lookup(b, id)
  {
    if i :| 0 <= i < |a| && a[i].value > Lookup(b, a[i].id) {
      LookupIs(a, a[i]);
      assert Lookup(a, a[i].id) > Lookup(b, a[i].id);
    }
    if id: nat :| Lookup(a, id) > Lookup(b, id) {
      if forall i | 0 <= i < |a| :: a[i].id != id { LookupAbsent(a, id); }
      var i :| 0 <= i < |a| && a[i].id == id;
      LookupIs(a, a[i]);
    }
  }

  function Mirror(o: Order): Order {
    match o case Greater => Less case Less => Greater case Equal => Equal case Concurrent => Concurrent
  }

  lemma CompareMirrored(a: Vector, b: Vector)
    ensures CompareSpec(a, b).Some? <==> CompareSpec(b, a).Some?
    ensures CompareSpec(a, b).Some? ==> CompareSpec(b, a).value == Mirror(CompareSpec(a, b).value)
  {
  }

  predicate AtLeast(o: Option<Order>) { o == Some(Greater) || o == Some(Equal) }

  /** Being at least as new is reflexive and transitive, and a strict step makes the whole strict. */
  lemma ComparePreorder(a: Vector, b: Vector, c: Vector)
    requires UniqueIds(a) && UniqueIds(b) && UniqueIds(c)
    ensures CompareSpec(a, a) == Some(Equal)
    ensures AtLeast(CompareSpec(a, b)) && AtLeast(CompareSpec(b, c)) ==>
              AtLeast(CompareSpec(a, c)) &&
              (CompareSpec(a, b) == Some(Greater) || CompareSpec(b, c) == Some(Greater) ==>
               CompareSpec(a, c) == Some(Greater))
  {
    ExceedsPointwise(a, a);
    ExceedsPointwise(a, b);
    ExceedsPointwise(b, a);
    ExceedsPointwise(b, c);
    ExceedsPointwise(c, b);
    ExceedsPointwise(a, c);
    ExceedsPointwise(c, a);
    if AtLeast(CompareSpec(a, b)) && AtLeast(CompareSpec(b, c)) {
      assert forall id: nat :: Lookup(b, id) <= Lookup(a, id) && Lookup(c, id) <= Lookup(b, id);
      if CompareSpec(a, b) == Some(Greater) {
        var id: nat :| Lookup(a, id) > Lookup(b, id);
        assert Lookup(a, id) > Lookup(c, id);
      } else if CompareSpec(b, c) == Some(Greater) {
        var id: nat :| Lookup(b, id) > Lookup(c, id);
        assert Lookup(a, id) > Lookup(c, id);
      }
    }
  }

  // ---------------------------------------------------------------- totals and the winner

  function Total(v: Vector): nat { if v == [] then 0 else v[0].value + Total(v[1..]) }

  function Without(v: Vector, id: nat): Vector {
    if v == [] then [] else if v[0].id == id then v[1..] else [v[0]] + Without(v[1..], id)
  }

  lemma {:induction false} WithoutIs(v: Vector, id: nat)
    requires UniqueIds(v)
    ensures UniqueIds(Without(v, id)) && Total(v) == Total(Without(v, id)) + Lookup(v, id)
    ensures forall x :: x in Without(v, id) <==> x in v && x.id != id
    ensures forall k: nat :: Lookup(Without(v, id), k) == if k == id then 0 else Lookup(v, k)
  {
    if v != [] {
      var rest := v[1..];
      if v[0].id == id {
        LookupAbsent(rest, id);
        assert v == [v[0]] + rest;
      } else {
        WithoutIs(rest, id);
        var w := [v[0]] + Without(rest, id);
        assert w[1..] == Without(rest, id) && v == [v[0]] + rest;
        assert UniqueIds(w) by {
          forall i, j | 0 <= i < j < |w| ensures w[i].id != w[j].id {
            if i == 0 {
              assert w[j] in Without(rest, id) && w[j] in rest;
              var k :| 0 <= k < |rest| && rest[k] == w[j];
              assert v[0].id != v[k + 1].id;
            } else {
              assert w[i] == w[1..][i - 1] && w[j] == w[1..][j - 1];
            }
          }
        }
        forall k: nat ensures Lookup(w, k) == if k == id then 0 else Lookup(v, k) {}
      }
    }
  }

  /** A vector that is nowhere smaller has no smaller total, and a larger one if it is somewhere larger. */
  lemma {:induction false} TotalMonotone(a: Vector, b: Vector)
    requires UniqueIds(a) && UniqueIds(b)
    requires forall id: nat :: Lookup(b, id) <= Lookup(a, id)
    ensures Total(b) <= Total(a)
    ensures (exists id: nat :: Lookup(b, id) < Lookup(a, id)) ==> Total(b) < Total(a)
    decreases |b|
  {
    if b == [] {
      if id: nat :| Lookup(b, id) < Lookup(a, id) {
        WithoutIs(a, id);
      }
    } else {
      var id := b[0].id;
      WithoutIs(a, id);
      WithoutIs(b, id);
      assert Without(b, id) == b[1..];
      TotalMonotone(Without(a, id), b[1..]);
      if k: nat :| Lookup(b, k) < Lookup(a, k) {
        if k != id { assert Lookup(b[1..], k) < Lookup(Without(a, id), k); }
      }
    }
  }

  /** A strictly newer vector has a strictly larger total. */
  lemma GreaterTotal(a: Vector, b: Vector)
    requires CompareSpec(a, b) == Some(Greater)
    ensures Total(a) > Total(b)
  {
    ExceedsPointwise(a, b);
    ExceedsPointwise(b, a);
    TotalMonotone(a, b);
  }

  const U64_COUNT: nat := 0x1_0000_0000_0000_0000

  /** The total as 64-bit addition gives it: it wraps. */
  function WrappedTotal(v: Vector): nat { Total(v) % U64_COUNT }

  /** That holds of the wrapped totals as long as the newer one's counters add up to less than 2^64. */
  lemma GreaterWrapped(a: Vector, b: Vector)
    requires CompareSpec(a, b) == Some(Greater) && Total(a) < U64_COUNT
    ensures WrappedTotal(a) > WrappedTotal(b)
  {
    GreaterTotal(a, b);
  }

  /** What conflict resolution looks at in one side's entry. */
  datatype Side = Side(version: Option<Vector>, deleted: bool, device: seq<nat>)

  function SideTotal(s: Side): Option<nat> {
    if s.version.None? then Some(0)
    else if !UniqueIds(s.version.value) then None
    else Some(WrappedTotal(s.version.value))
  }

  ghost predicate DeviceLess(d: seq<nat>, e: seq<nat>) { LexLess(d, e) }

  /** Whether the first side wins; `None` for a malformed vector. */
  ghost function FirstWins(a: Side, b: Side): Option<bool> {
    var ta, tb := SideTotal(a), SideTotal(b);
    if ta.None? || tb.None? then None
    else if ta != tb then Some(ta.value > tb.value)
    else if a.deleted != b.deleted then Some(!a.deleted)
    else Some(DeviceLess(b.device, a.device))
  }

  lemma DeviceTrichotomy(d: seq<nat>, e: seq<nat>)
    requires |d| == |e|
    ensures !(DeviceLess(d, e) && DeviceLess(e, d))
    ensures d != e ==> DeviceLess(d, e) || DeviceLess(e, d)
    ensures d == e ==> !DeviceLess(d, e)
  {
    if DeviceLess(d, e) && DeviceLess(e, d) {
      var j :| DiffersAt(d, e, j) && d[j] < e[j];
      var k :| DiffersAt(e, d, k) && e[k] < d[k];
    }
    if d != e {
      var k := FirstDifference(d, e);
      if d[k] > e[k] { assert DiffersAt(e, d, k); }
    }
  }

  /**
    Both peers name the same winner exactly when something tells the sides apart: the totals, the
    deletion flags or the device IDs.
   */
  lemma PeersAgree(a: Side, b: Side)
    requires SideTotal(a).Some? && SideTotal(b).Some? && |a.device| == |b.device|
    ensures FirstWins(a, b).Some? && FirstWins(b, a).Some?
    ensures FirstWins(a, b).value != FirstWins(b, a).value <==>
              SideTotal(a) != SideTotal(b) || a.deleted != b.deleted || a.device != b.device
  {
    DeviceTrichotomy(a.device, b.device);
  }

  /**
    Who wins, on whichever side they stand: the larger total, on equal totals the one that is not
    deleted, with equal flags, too, the lexicographically greater device ID.
   */
  lemma WinnerIs(a: Side, b: Side)
    requires SideTotal(a).Some? && SideTotal(b).Some? && |a.device| == |b.device|
    ensures var ta := if a.version.Some? then Total(a.version.value) % 0x1_0000_0000_0000_0000 else 0;
            var tb := if b.version.Some? then Total(b.version.value) % 0x1_0000_0000_0000_0000 else 0;
            && (FirstWins(a, b) == Some(true) <==>
                || ta > tb || (ta == tb && !a.deleted && b.deleted)
                || (ta == tb && a.deleted == b.deleted && LexLess(b.device, a.device)))
            && (FirstWins(a, b) == Some(false) <==>
                || ta < tb || (ta == tb && a.deleted && !b.deleted)
                || (ta == tb && a.deleted == b.deleted && (LexLess(a.device, b.device) || a.device == b.device)))
  {
    DeviceTrichotomy(a.device, b.device);
  }

  /**
    A strictly newer version whose counters add up to less than 2^64 is never the loser, whatever
    the flags and devices.
   */
  lemma NewerWins(a: Side, b: Side)
    requires a.version.Some? && b.version.Some? && CompareSpec(a.version.value, b.version.value) == Some(Greater)
    requires Total(a.version.value) < U64_COUNT
    ensures FirstWins(a, b) == Some(true) && FirstWins(b, a) == Some(false)
  {
    GreaterWrapped(a.version.value, b.version.value);
  }

  /** Both sides with every choice of flags and devices. */
  ghost predicate AlwaysWins(v: Vector, w: Vector) {
    forall deleted: bool, gone: bool, d: seq<nat>, e: seq<nat> ::
      FirstWins(Side(Some(v), deleted, d), Side(Some(w), gone, e)) == Some(true)
  }

  /** The newer version wins whatever the flags and devices if and only if its wrapped total is the larger. */
  lemma NewerWinsExactly(v: Vector, w: Vector)
    requires CompareSpec(v, w) == Some(Greater)
    ensures AlwaysWins(v, w) <==> WrappedTotal(v) > WrappedTotal(w)
  {
    if AlwaysWins(v, w) {
      assert FirstWins(Side(Some(v), true, []), Side(Some(w), false, [])) == Some(true);
    }
  }

  /** A strictly newer version whose total wraps to 0 loses. */
  lemma WrappedLoses()
    ensures var was, newer := [Counter(1, U64_COUNT - 1)], [Counter(1, U64_COUNT - 1), Counter(2, 1)];
            && CompareSpec(newer, was) == Some(Greater) && WrappedTotal(newer) == 0
            && !AlwaysWins(newer, was)
            && forall deleted: bool, gone: bool, d: seq<nat>, e: seq<nat> ::
                 FirstWins(Side(Some(newer), deleted, d), Side(Some(was), gone, e)) == Some(false)
  {
    var was, newer := [Counter(1, U64_COUNT - 1)], [Counter(1, U64_COUNT - 1), Counter(2, 1)];
    assert newer[1..] == [Counter(2, 1)] && newer[1..][1..] == [] && was[1..] == [];
    assert Total([]) == 0 && Total(was) == U64_COUNT - 1 && Total(newer[1..]) == 1;
    assert Total(newer) == U64_COUNT;
    assert Lookup(was, 1) == U64_COUNT - 1 && Lookup(newer, 1) == U64_COUNT - 1;
    assert Lookup(was, 2) == 0;
    assert newer[1].value > Lookup(was, newer[1].id);
    NewerWinsExactly(newer, was);
  }
}
