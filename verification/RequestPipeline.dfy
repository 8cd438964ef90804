/**
  The index loop and the message loop of one connection, interleaved.

  The index loop walks the blocks of announced files; the message loop takes responses and drains
  the deferred queue.  Between two locked sections a loop may hold one block in hand.
 */
module RequestPipeline {
  import opened Prelude
  import opened RequestWindow

  datatype Messages =
    | Idle
    | Storing(block: Block)   // a response arrived, its block is being stored
    | Draining                // at the top of the drain loop
    | Hand(block: Block)      // a deferred block is being looked up

  /** `submitted` counts the blocks of all files begun, `stored` those that have arrived or were reused. */
  datatype State = State(
    pending: Pending,
    nextId: Id,
    max: nat,
    deferred: seq<Block>,
    todo: seq<Block>,
    hand: Option<Block>,
    messages: Messages,
    open: bool,
    submitted: multiset<Block>,
    stored: multiset<Block>)

  datatype Action =
    | Begin(blocks: seq<Block>)  // the index loop starts on a file
    | Found                      // its next block is already there
    | Lack                       // its next block is not
    | Submit                     // and is submitted or deferred
    | Response(id: Id)
    | Store
    | Fail                       // an error ends the connection
    | Top                        // the drain loop goes round
    | Reuse                      // the deferred block has turned up
    | Resubmit                   // it has not

  predicate Enabled(s: State, a: Action) {
    && s.open
    && match a
       case Begin(_) => s.todo == [] && s.hand.None?
       case Found => s.todo != [] && s.hand.None?
       case Lack => s.todo != [] && s.hand.None?
       case Submit => s.hand.Some?
       case Response(_) => s.messages.Idle?
       case Store => s.messages.Storing?
       case Fail => true
       case Top => s.messages.Draining?
       case Reuse => s.messages.Hand?
       case Resubmit => s.messages.Hand?
  }

  /** `submit_or_defer_block`. */
  function Send(s: State, b: Block): State {
    if |s.pending| >= s.max then s.(deferred := s.deferred + [b])
    else
      var k := FindFree(s.pending, s.nextId, 0);
      s.(pending := s.pending[Shift(s.nextId, k) := b], nextId := Shift(s.nextId, k + 1))
  }

  function Next(s: State, a: Action): State
    requires Enabled(s, a)
  {
    match a
    case Begin(blocks) => s.(todo := blocks, submitted := s.submitted + multiset(blocks))
    case Found => s.(todo := s.todo[1..], stored := s.stored + multiset{s.todo[0]})
    case Lack => s.(todo := s.todo[1..], hand := Some(s.todo[0]))
    case Submit => Send(s, s.hand.value).(hand := None)
    case Response(id) =>
      if id in s.pending then s.(pending := s.pending - {id}, messages := Storing(s.pending[id]))
      else s.(messages := Draining)
    case Store => s.(messages := Draining, stored := s.stored + multiset{s.messages.block})
    case Fail => s.(open := false)
    case Top =>
      if |s.pending| >= s.max || s.deferred == [] then s.(messages := Idle)
      else s.(deferred := s.deferred[1..], messages := Hand(s.deferred[0]))
    case Reuse => s.(messages := Draining, stored := s.stored + multiset{s.messages.block})
    case Resubmit => Send(s, s.messages.block).(messages := Draining)
  }

  ghost predicate Runs(s: State, acts: seq<Action>, t: State)
    decreases |acts|
  {
    if acts == [] then t == s else Enabled(s, acts[0]) && Runs(Next(s, acts[0]), acts[1..], t)
  }

  function Initial(configured: nat): State {
    State(map[], 0, Clamp(configured), [], [], None, Idle, true, multiset{}, multiset{})
  }

  // ---------------------------------------------------------------- invariants

  function Is(x: Block, b: Block): nat { if x == b then 1 else 0 }

  function InHand(m: Messages, b: Block): nat { if m.Storing? || m.Hand? then Is(m.block, b) else 0 }

  /** How often a block is stored, in flight, deferred, still to come or in hand. */
  ghost function Held(s: State, b: Block): nat {
    s.stored[b] + Blocks(s.pending)[b] + multiset(s.deferred)[b] + multiset(s.todo)[b]
    + (if s.hand.Some? then Is(s.hand.value, b) else 0) + InHand(s.messages, b)
  }

  /** Nothing is lost and nothing is made up. */
  ghost predicate Conserved(s: State) { forall b :: s.submitted[b] == Held(s, b) }

  ghost predicate Inv(s: State) { Bounded(s) && Conserved(s) }

  /** A send goes out under an id that is not in flight, or is deferred because the window is full. */
  lemma SendKeeps(s: State, b: Block)
    requires 1 <= s.max <= ID_COUNT && |s.pending| <= s.max
    ensures var t := Send(s, b);
            && t == s.(pending := t.pending, nextId := t.nextId, deferred := t.deferred)
            && |s.pending| <= |t.pending| <= t.max
            && (t.deferred != s.deferred ==> |t.pending| == t.max)
            && forall id | id in s.pending :: id in t.pending && t.pending[id] == s.pending[id]
  {
    hide Shift, Blocks;
    if |s.pending| < s.max {
      var k := FindFree(s.pending, s.nextId, 0);
      SomeFree(s.pending, s.nextId);
      Added(s.pending, Shift(s.nextId, k), b);
    }
  }

  lemma SendCounts(s: State, x: Block, b: Block)
    requires 1 <= s.max <= ID_COUNT && |s.pending| <= s.max
    ensures var t := Send(s, x);
            Blocks(t.pending)[b] + multiset(t.deferred)[b] == Blocks(s.pending)[b] + multiset(s.deferred)[b] + Is(x, b)
  {
    hide Shift, Blocks;
    if |s.pending| < s.max {
      var k := FindFree(s.pending, s.nextId, 0);
      SomeFree(s.pending, s.nextId);
      Added(s.pending, Shift(s.nextId, k), x);
    }
  }

  lemma HeadCounts(blocks: seq<Block>, b: Block)
    requires blocks != []
    ensures multiset(blocks)[b] == Is(blocks[0], b) + multiset(blocks[1..])[b]
  {
    assert blocks == [blocks[0]] + blocks[1..];
  }

  lemma ResponseCounts(pending: Pending, id: Id, b: Block)
    requires id in pending
    ensures Blocks(pending)[b] == Blocks(pending - {id})[b] + Is(pending[id], b)
  {
    hide Blocks;
    Removed(pending, id);
  }

  lemma AddCounts(m: multiset<Block>, x: Block, b: Block)
    ensures (m + multiset{x})[b] == m[b] + Is(x, b)
  {}

  /** The window is never overfull; when the message loop rests, blocks are deferred only while it is full. */
  predicate Bounded(s: State) {
    && 1 <= s.max <= ID_COUNT && |s.pending| <= s.max
    && (s.messages.Idle? && s.deferred != [] ==> |s.pending| == s.max)
  }

  lemma StepBounded(s: State, a: Action)
    requires Enabled(s, a) && Bounded(s)
    ensures Bounded(Next(s, a))
  {
    hide Blocks, Send, Shift, FindFree;
    match a
    case Submit => SendKeeps(s, s.hand.value);
    case Response(id) => if id in s.pending { Fewer(s.pending, id); }
    case Resubmit => SendKeeps(s, s.messages.block);
    case _ =>
  }

  /** No request in flight is overwritten or dropped, except by its own response. */
  lemma NoneOverwritten(s: State, a: Action, id: Id)
    requires Enabled(s, a) && Bounded(s) && id in s.pending && a != Response(id)
    ensures id in Next(s, a).pending && Next(s, a).pending[id] == s.pending[id]
  {
    hide Blocks, Send, Shift, FindFree;
    if a.Submit? { SendKeeps(s, s.hand.value); }
    if a.Resubmit? { SendKeeps(s, s.messages.block); }
  }

  /** Each block is counted the same before and after, apart from those of a new file. */
  lemma IndexCounts(s: State, a: Action, b: Block)
    requires Enabled(s, a) && Bounded(s) && (a.Begin? || a.Found? || a.Lack? || a.Submit? || a.Fail?)
    ensures Next(s, a).submitted[b] + Held(s, b) == s.submitted[b] + Held(Next(s, a), b)
  {
    hide Blocks, Send, Shift, FindFree;
    match a
    case Begin(blocks) => assert multiset(s.todo)[b] == 0;
    case Found => HeadCounts(s.todo, b); AddCounts(s.stored, s.todo[0], b);
    case Lack => HeadCounts(s.todo, b);
    case Submit => SendKeeps(s, s.hand.value); SendCounts(s, s.hand.value, b);
    case Fail =>
  }

  lemma ResponseHeld(s: State, id: Id, b: Block)
    requires Enabled(s, Response(id))
    ensures Next(s, Response(id)).submitted == s.submitted && Held(s, b) == Held(Next(s, Response(id)), b)
  {
    hide Blocks;
    if id in s.pending { ResponseCounts(s.pending, id, b); }
  }

  lemma ArrivedHeld(s: State, a: Action, b: Block)
    requires Enabled(s, a) && (a.Store? || a.Reuse?)
    ensures Next(s, a).submitted == s.submitted && Held(s, b) == Held(Next(s, a), b)
  {
    hide Blocks;
    AddCounts(s.stored, s.messages.block, b);
  }

  lemma TopHeld(s: State, b: Block)
    requires Enabled(s, Top)
    ensures Next(s, Top).submitted == s.submitted && Held(s, b) == Held(Next(s, Top), b)
  {
    hide Blocks;
    if s.deferred != [] { HeadCounts(s.deferred, b); }
  }

  lemma ResubmitHeld(s: State, b: Block)
    requires Enabled(s, Resubmit) && Bounded(s)
    ensures Next(s, Resubmit).submitted == s.submitted && Held(s, b) == Held(Next(s, Resubmit), b)
  {
    hide Blocks, Send;
    SendKeeps(s, s.messages.block);
    SendCounts(s, s.messages.block, b);
  }

  lemma Step(s: State, a: Action)
    requires Enabled(s, a) && Inv(s)
    ensures Inv(Next(s, a))
  {
    hide Bounded, Held, Next;
    StepBounded(s, a);
    forall b ensures Next(s, a).submitted[b] == Held(Next(s, a), b) {
      match a
      case Response(id) => ResponseHeld(s, id, b);
      case Store => ArrivedHeld(s, a, b);
      case Reuse => ArrivedHeld(s, a, b);
      case Top => TopHeld(s, b);
      case Resubmit => ResubmitHeld(s, b);
      case _ => IndexCounts(s, a, b);
    }
  }

  lemma {:induction false} RunKeeps(s: State, acts: seq<Action>, t: State)
    requires Runs(s, acts, t) && Inv(s)
    ensures Inv(t)
    decreases |acts|
  {
    hide Inv, Next;
    if acts != [] {
      Step(s, acts[0]);
      RunKeeps(Next(s, acts[0]), acts[1..], t);
    }
  }

  // ---------------------------------------------------------------- what runs guarantee

  lemma InitialOk(configured: nat)
    requires configured <= ID_COUNT
    ensures Inv(Initial(configured))
  {}

  /** The conservation law as one equation between multisets. */
  lemma AsMultisets(s: State)
    requires Conserved(s)
    ensures s.submitted ==
            s.stored + Blocks(s.pending) + multiset(s.deferred) + multiset(s.todo)
            + (if s.hand.Some? then multiset{s.hand.value} else multiset{})
            + if s.messages.Storing? || s.messages.Hand? then multiset{s.messages.block} else multiset{}
  {
    hide Blocks;
    var all := s.stored + Blocks(s.pending) + multiset(s.deferred) + multiset(s.todo)
               + (if s.hand.Some? then multiset{s.hand.value} else multiset{})
               + if s.messages.Storing? || s.messages.Hand? then multiset{s.messages.block} else multiset{};
    forall b ensures s.submitted[b] == all[b] { assert s.submitted[b] == Held(s, b); }
  }

  /**
    In every interleaving the window is never overfull, blocks are conserved, and when the message
    loop rests with blocks deferred the window is full, so a response is due.
   */
  lemma WindowHolds(configured: nat, acts: seq<Action>, s: State)
    requires configured <= ID_COUNT && Runs(Initial(configured), acts, s)
    ensures |s.pending| <= s.max && Conserved(s)
    ensures s.messages.Idle? && s.deferred != [] ==> |s.pending| == s.max >= 1
  {
    hide Runs, Conserved;
    InitialOk(configured);
    RunKeeps(Initial(configured), acts, s);
  }

  /** Everything but new files, errors and responses to requests that were never made. */
  predicate Progress(s: State, a: Action) { !a.Begin? && !a.Fail? && (a.Response? ==> a.id in s.pending) }

  function Potential(s: State): nat {
    30 * |s.todo| + (if s.hand.Some? then 29 else 0) + 10 * |s.deferred| + 4 * |s.pending| +
    match s.messages
    case Idle => 0
    case Draining => 1
    case Storing(_) => 3
    case Hand(_) => if |s.pending| >= s.max then 12 else 10
  }

  lemma SendSizes(s: State, b: Block)
    requires 1 <= s.max <= ID_COUNT && |s.pending| <= s.max
    ensures var t := Send(s, b);
            if |s.pending| >= s.max then |t.pending| == |s.pending| && |t.deferred| == |s.deferred| + 1
            else |t.pending| == |s.pending| + 1 && |t.deferred| == |s.deferred|
  {
    hide Shift, Blocks;
    if |s.pending| < s.max {
      var k := FindFree(s.pending, s.nextId, 0);
      SomeFree(s.pending, s.nextId);
      Added(s.pending, Shift(s.nextId, k), b);
    }
  }

  /** Every step of progress uses up potential, also when a drained block has to be deferred again. */
  lemma StepDecreases(s: State, a: Action)
    requires Enabled(s, a) && Bounded(s) && Progress(s, a)
    ensures Potential(Next(s, a)) < Potential(s)
  {
    hide Send, Potential, Bounded;
    match a
    case Submit => SubmitDecreases(s);
    case Response(id) => ResponseDecreases(s, id);
    case Resubmit => ResubmitDecreases(s);
    case _ => OtherDecreases(s, a);
  }

  lemma OtherDecreases(s: State, a: Action)
    requires Enabled(s, a) && (a.Found? || a.Lack? || a.Store? || a.Top? || a.Reuse?)
    ensures Potential(Next(s, a)) < Potential(s)
  {}

  lemma ResponseDecreases(s: State, id: Id)
    requires Enabled(s, Response(id)) && id in s.pending
    ensures Potential(Next(s, Response(id))) < Potential(s)
  {
    Fewer(s.pending, id);
  }

  lemma SubmitDecreases(s: State)
    requires Enabled(s, Submit) && Bounded(s)
    ensures Potential(Next(s, Submit)) < Potential(s)
  {
    hide Send;
    SendKeeps(s, s.hand.value);
    SendSizes(s, s.hand.value);
  }

  lemma ResubmitDecreases(s: State)
    requires Enabled(s, Resubmit) && Bounded(s)
    ensures Potential(Next(s, Resubmit)) < Potential(s)
  {
    hide Send;
    SendKeeps(s, s.messages.block);
    SendSizes(s, s.messages.block);
  }

  ghost predicate ProgressRun(s: State, acts: seq<Action>, t: State)
    decreases |acts|
  {
    if acts == [] then t == s
    else Enabled(s, acts[0]) && Progress(s, acts[0]) && ProgressRun(Next(s, acts[0]), acts[1..], t)
  }

  /** Both loops come to rest: no run of progress is longer than the potential it starts from. */
  lemma {:induction false} ProgressEnds(s: State, acts: seq<Action>, t: State)
    requires Inv(s) && ProgressRun(s, acts, t)
    ensures |acts| + Potential(t) <= Potential(s) && Inv(t)
    decreases |acts|
  {
    hide Next, Potential, Bounded, Conserved, Progress;
    if acts != [] {
      StepDecreases(s, acts[0]);
      Step(s, acts[0]);
      ProgressEnds(Next(s, acts[0]), acts[1..], t);
    }
  }

  predicate Answered(s: State) { s.pending == map[] && s.todo == [] && s.hand.None? && s.messages.Idle? }

  /** Until everything is answered some progress is possible. */
  lemma NeverStuck(s: State) returns (a: Action)
    requires Inv(s) && s.open && !Answered(s)
    ensures Enabled(s, a) && Progress(s, a)
  {
    if s.hand.Some? { a := Submit; }
    else if s.todo != [] { a := Lack; }
    else if s.messages.Storing? { a := Store; }
    else if s.messages.Draining? { a := Top; }
    else if s.messages.Hand? { a := Resubmit; }
    else {
      assert |s.pending| > 0;
      a := Response(Pick(s.pending.Keys));
    }
  }

  /** The pipeline does not stall: when every request has been answered, every submitted block is stored. */
  lemma AllStored(s: State)
    requires Inv(s) && Answered(s)
    ensures s.deferred == [] && s.submitted == s.stored
  {
    forall b ensures s.submitted[b] == s.stored[b] {
      assert s.submitted[b] == Held(s, b) && Blocks(s.pending) == multiset{};
    }
  }
}
