/** The window of block requests in flight on one connection. */
module RequestWindow {
  import opened Prelude

  const ID_COUNT: nat := 0x1_0000_0000
  const MIN_ID: int := -0x8000_0000

  /** A 32-bit request id. */
  type Id = x: int | MIN_ID <= x < MIN_ID + ID_COUNT

  datatype Block = Block(folder: nat, name: Bytes, offset: int, hash: Bytes, size: int, number: int)

  type Pending = map<Id, Block>

  // ---------------------------------------------------------------- request ids

  /** Addition that wraps at 32 bits. */
  function Shift(id: Id, k: nat): Id
  {
    (id - MIN_ID + k) % ID_COUNT + MIN_ID
  }

  lemma ShiftOne(id: Id, k: nat)
    ensures Shift(Shift(id, k), 1) == Shift(id, k + 1)
  {}

  lemma ShiftNone(id: Id)
    ensures Shift(id, 0) == id
  {}

  lemma Wraps(id: Id)
    ensures Shift(id, 1) == if id == MIN_ID + ID_COUNT - 1 then MIN_ID else id + 1
  {}

  /** Every id is some number of steps ahead. */
  lemma ShiftReaches(id: Id, target: Id)
    ensures exists k: nat :: k < ID_COUNT && Shift(id, k) == target
  {
    var k := if target >= id then target - id else target - id + ID_COUNT;
    assert Shift(id, k) == target;
  }

  /** `k` steps ahead of `id` is the first id that is not in flight. */
  predicate FirstFree(pending: Pending, id: Id, k: nat)
  {
    Shift(id, k) !in pending && forall i: nat | i < k :: Shift(id, i) in pending
  }

  function FindFree(pending: Pending, id: Id, k: nat): (r: nat)
    requires k <= ID_COUNT
    ensures k <= r <= ID_COUNT
    ensures r < ID_COUNT ==> Shift(id, r) !in pending
    ensures forall i | k <= i < r :: Shift(id, i) in pending
    decreases ID_COUNT - k
  {
    if k == ID_COUNT || Shift(id, k) !in pending then k else FindFree(pending, id, k + 1)
  }

  lemma {:induction false} IdsBelow(ids: set<Id>, n: nat)
    requires forall x | MIN_ID <= x < MIN_ID + n :: x in ids
    ensures |ids| >= n
    decreases n
  {
    if n > 0 {
      var last := MIN_ID + (n - 1);
      IdsBelow(ids - {last}, n - 1);
    }
  }

  /** With fewer than 2^32 requests in flight some id is free. */
  lemma SomeFree(pending: Pending, id: Id)
    requires |pending| < ID_COUNT
    ensures FindFree(pending, id, 0) < ID_COUNT && FirstFree(pending, id, FindFree(pending, id, 0))
  {
    hide Shift;
    if FindFree(pending, id, 0) == ID_COUNT {
      forall x | MIN_ID <= x < MIN_ID + ID_COUNT ensures x in pending.Keys { ShiftReaches(id, x); }
      IdsBelow(pending.Keys, ID_COUNT);
    }
  }

  /** The search for an id ends exactly when not all 2^32 are in flight. */
  lemma FreeExactly(pending: Pending, id: Id)
    ensures FindFree(pending, id, 0) < ID_COUNT <==> |pending| < ID_COUNT
  {
    hide Shift;
    if |pending| < ID_COUNT {
      SomeFree(pending, id);
    } else {
      EveryId(pending);
      var k := FindFree(pending, id, 0);
      assert Shift(id, k) in pending;
    }
  }

  lemma {:induction false} IdsAtMost(ids: set<Id>, n: nat)
    requires n <= ID_COUNT && forall x | x in ids :: x < MIN_ID + n
    ensures |ids| <= n && (|ids| == n ==> forall x: Id | x < MIN_ID + n :: x in ids)
    decreases n
  {
    if n == 0 {
      assert ids == {};
    } else {
      var last := MIN_ID + (n - 1);
      IdsAtMost(ids - {last}, n - 1);
      if last in ids {
        assert |ids - {last}| == |ids| - 1;
        forall x: Id | |ids| == n && x < MIN_ID + n ensures x in ids { assert x < last ==> x in ids - {last}; }
      } else {
        assert ids - {last} == ids;
      }
    }
  }

  lemma EveryId(pending: Pending)
    requires |pending| >= ID_COUNT
    ensures forall x: Id :: x in pending
  {
    IdsAtMost(pending.Keys, ID_COUNT);
  }

  // ---------------------------------------------------------------- blocks in flight

  /** The blocks of a map, with multiplicity. */
  ghost function Blocks(pending: Pending): multiset<Block>
    decreases |pending|
  {
    if |pending| == 0 then multiset{}
    else
      var id := Pick(pending.Keys);
      assert |pending - {id}| < |pending| by { Fewer(pending, id); }
      Blocks(pending - {id}) + multiset{pending[id]}
  }

  ghost function Pick(ids: set<Id>): (id: Id)
    requires |ids| > 0
    ensures id in ids
  {
    var x :| x in ids;
    x
  }

  lemma Fewer(pending: Pending, id: Id)
    requires id in pending
    ensures |pending - {id}| == |pending| - 1
  {
    assert (pending - {id}).Keys == pending.Keys - {id};
  }

  lemma Unfold(pending: Pending)
    requires |pending| > 0
    ensures var id := Pick(pending.Keys); Blocks(pending) == Blocks(pending - {id}) + multiset{pending[id]}
  {}

  lemma Apart(pending: Pending, p: Id, q: Id)
    requires p in pending && q in pending && p != q
    ensures var a, b := pending - {p}, pending - {q};
            && q in a && a[q] == pending[q] && p in b && b[p] == pending[p] && a - {q} == b - {p}
  {
    assert pending - {p} - {q} == pending - {q} - {p};
  }

  lemma {:induction false} Removed(pending: Pending, id: Id)
    requires id in pending
    ensures Blocks(pending) == Blocks(pending - {id}) + multiset{pending[id]}
    decreases |pending|
  {
    hide Blocks;
    Unfold(pending);
    var p := Pick(pending.Keys);
    if p != id {
      Fewer(pending, p);
      Fewer(pending, id);
      Apart(pending, p, id);
      Removed(pending - {p}, id);
      Removed(pending - {id}, p);
    }
  }

  lemma Added(pending: Pending, id: Id, b: Block)
    requires id !in pending
    ensures Blocks(pending[id := b]) == Blocks(pending) + multiset{b} && |pending[id := b]| == |pending| + 1
  {
    Removed(pending[id := b], id);
    assert pending[id := b] - {id} == pending;
    Fewer(pending[id := b], id);
  }

  // ---------------------------------------------------------------- the connection's state

  function Clamp(configured: nat): nat { if configured < 1 then 1 else configured }

  class Window {
    var pending: Pending
    var nextId: Id
    const max: nat
    var deferred: seq<Block>

    ghost predicate Valid()
      reads this
    {
      1 <= max <= ID_COUNT && |pending| <= max
    }

    constructor (configured: nat)
      requires configured <= ID_COUNT
      ensures Valid() && max == Clamp(configured) && pending == map[] && deferred == [] && nextId == 0
    {
      max := if configured < 1 then 1 else configured;
      pending, nextId, deferred := map[], 0, [];
    }

    /** The first id from the counter on that is not in flight; the counter moves past it. */
    method NextRequestId() returns (id: Id)
      requires Valid() && |pending| < ID_COUNT
      modifies this`nextId
      ensures id !in pending
      ensures var k := FindFree(pending, old(nextId), 0);
              id == Shift(old(nextId), k) && nextId == Shift(old(nextId), k + 1)
    {
      hide Shift;
      ghost var start, k := nextId, 0;
      ShiftNone(start);
      SomeFree(pending, start);
      while true
        invariant k < ID_COUNT && nextId == Shift(start, k)
          && FindFree(pending, start, 0) == FindFree(pending, start, k)
        decreases ID_COUNT - k
      {
        id := nextId;
        nextId := if id == MIN_ID + ID_COUNT - 1 then MIN_ID else id + 1;
        Wraps(id);
        ShiftOne(start, k);
        if id !in pending { return; }
        k := k + 1;
      }
    }

    method SubmitOrDefer(b: Block) returns (request: Option<Id>)
      requires Valid()
      modifies this`pending, this`nextId, this`deferred
      ensures Valid()
      ensures if old(|pending|) >= max
              then request == None && deferred == old(deferred) + [b] && pending == old(pending)
                && nextId == old(nextId)
              else request.Some? && request.value !in old(pending) && pending == old(pending)[request.value := b]
                   && |pending| == old(|pending|) + 1 && deferred == old(deferred)
                   && var k := FindFree(old(pending), old(nextId), 0);
                      request.value == Shift(old(nextId), k) && nextId == Shift(old(nextId), k + 1)
    {
      hide Shift, FindFree;
      if |pending| >= max {
        deferred := deferred + [b];
        return None;
      }
      var id := NextRequestId();
      Added(pending, id, b);
      pending := pending[id := b];
      request := Some(id);
    }

    /** The request a response answers leaves the window. */
    method TakeResponse(id: Id) returns (b: Option<Block>)
      requires Valid()
      modifies this`pending
      ensures Valid()
      ensures b == (if id in old(pending) then Some(old(pending)[id]) else None) && pending == old(pending) - {id}
      ensures Blocks(old(pending)) == Blocks(pending) + if b.Some? then multiset{b.value} else multiset{}
    {
      if id !in pending {
        assert pending - {id} == pending;
        return None;
      }
      Removed(pending, id);
      Fewer(pending, id);
      b := Some(pending[id]);
      pending := pending - {id};
    }

    /** Deferred blocks move into the window until it is full; those in `present` need no request. */
    method DrainDeferred(present: set<Block>) returns (ghost reused: multiset<Block>)
      requires Valid()
      modifies this`pending, this`nextId, this`deferred
      ensures Valid() && (deferred == [] || |pending| == max)
      ensures Blocks(old(pending)) + multiset(old(deferred)) == Blocks(pending) + multiset(deferred) + reused
      ensures forall id | id in old(pending) :: id in pending && pending[id] == old(pending)[id]
      ensures forall b | b in reused :: b in present
    {
      hide Blocks, Shift, FindFree;
      reused := multiset{};
      while |pending| < max && deferred != []
        invariant Valid()
        invariant Blocks(old(pending)) + multiset(old(deferred)) == Blocks(pending) + multiset(deferred) + reused
        invariant forall id | id in old(pending) :: id in pending && pending[id] == old(pending)[id]
        invariant forall b | b in reused :: b in present
        decreases |deferred|
      {
        var b := deferred[0];
        assert deferred == [b] + deferred[1..];
        deferred := deferred[1..];
        if b in present {
          reused := reused + multiset{b};
        } else {
          ghost var before := pending;
          var request := SubmitOrDefer(b);
          Added(before, request.value, b);
        }
      }
    }
  }
}
