/**
  Filtered compaction over a stack of sorted runs, newest first.

  A merge replaces a contiguous group of runs by one.  A row the filter prunes is dropped when the
  group reaches the last run and becomes a tombstone otherwise.
 */
module SortedRuns {
  import opened Prelude
  import opened Files
  import opened VersionVectors
  import opened StoreKeys
  import opened FolderModel

  /** A row's value as far as the filter looks at it. */
  datatype Value = Entry(file: FileInfo) | Opaque(bytes: Bytes)

  datatype Cell = Put(value: Value) | Tombstone

  type Run = map<Row, Cell>

  /** The newest cell of a row. */
  function Newest(runs: seq<Run>, row: Row): Option<Cell> {
    if runs == [] then None else if row in runs[0] then Some(runs[0][row]) else Newest(runs[1..], row)
  }

  /** What a reader of the stack sees. */
  function Visible(runs: seq<Run>, row: Row): Option<Value> {
    var c := Newest(runs, row);
    if c.Some? && c.value.Put? then Some(c.value.value) else None
  }

  /** The committed file a cell holds; tombstones and other values hold none. */
  function FileOf(c: Cell): Option<FileInfo> { if c.Put? && c.value.Entry? then Some(c.value.file) else None }

  function RowsOf(runs: seq<Run>): set<Row> {
    if runs == [] then {} else runs[0].Keys + RowsOf(runs[1..])
  }

  lemma {:induction false} NewestIn(runs: seq<Run>, row: Row)
    ensures row in RowsOf(runs) <==> Newest(runs, row).Some?
    decreases |runs|
  {
    if runs != [] { NewestIn(runs[1..], row); }
  }

  /** The merged run: a pruned row leaves nothing with `drop`, a tombstone without. */
  function Merged(group: seq<Run>, f: Filter, drop: bool): Run {
    map row | row in RowsOf(group) && Newest(group, row).Some?
      && !(drop && Judged(f, row, FileOf(Newest(group, row).value)))
      :: if Judged(f, row, FileOf(Newest(group, row).value)) then Tombstone else Newest(group, row).value
  }

  /** Runs `i` up to `j` merged; `drop` says whether a pruned row leaves no tombstone. */
  function MergeWith(runs: seq<Run>, i: nat, j: nat, f: Filter, drop: bool): seq<Run>
    requires i <= j <= |runs|
  {
    runs[..i] + [Merged(runs[i..j], f, drop)] + runs[j..]
  }

  /** As the filter decides: drop only when the destination is the last run. */
  function Merge(runs: seq<Run>, i: nat, j: nat, f: Filter): seq<Run>
    requires i <= j <= |runs|
  {
    MergeWith(runs, i, j, f, j == |runs|)
  }

  lemma {:induction false} NewestOf(a: seq<Run>, b: seq<Run>, row: Row)
    ensures Newest(a + b, row) == if Newest(a, row).Some? then Newest(a, row) else Newest(b, row)
    decreases |a|
  {
    if a == [] {
      assert a + b == b;
    } else {
      assert (a + b)[0] == a[0] && (a + b)[1..] == a[1..] + b;
      NewestOf(a[1..], b, row);
    }
  }

  /** The stack in three parts. */
  lemma Parts(runs: seq<Run>, i: nat, j: nat, row: Row)
    requires i <= j <= |runs|
    ensures Newest(runs, row) == if Newest(runs[..i], row).Some? then Newest(runs[..i], row)
                                 else if Newest(runs[i..j], row).Some? then Newest(runs[i..j], row)
                                 else Newest(runs[j..], row)
  {
    assert runs == runs[..i] + (runs[i..j] + runs[j..]);
    NewestOf(runs[..i], runs[i..j] + runs[j..], row);
    NewestOf(runs[i..j], runs[j..], row);
  }

  lemma MergedParts(runs: seq<Run>, i: nat, j: nat, f: Filter, drop: bool, row: Row)
    requires i <= j <= |runs|
    ensures var m := Merged(runs[i..j], f, drop);
            Newest(MergeWith(runs, i, j, f, drop), row) ==
              if Newest(runs[..i], row).Some? then Newest(runs[..i], row)
              else if row in m then Some(m[row]) else Newest(runs[j..], row)
  {
    hide Merged;
    var m := Merged(runs[i..j], f, drop);
    assert MergeWith(runs, i, j, f, drop) == runs[..i] + ([m] + runs[j..]);
    NewestOf(runs[..i], [m] + runs[j..], row);
    NewestOf([m], runs[j..], row);
    assert [m][1..] == [];
  }

  /** The group decides about the row and its filter prunes it. */
  predicate Prunable(runs: seq<Run>, i: nat, j: nat, f: Filter, row: Row)
    requires i <= j <= |runs|
  {
    && Newest(runs[..i], row).None? && Newest(runs[i..j], row).Some?
    && Judged(f, row, FileOf(Newest(runs[i..j], row).value))
  }

  lemma NewestOnTop(batch: Run, runs: seq<Run>, row: Row)
    ensures Newest([batch] + runs, row) == if row in batch then Some(batch[row]) else Newest(runs, row)
  {
    assert ([batch] + runs)[1..] == runs;
  }

  lemma MergeNewest(runs: seq<Run>, i: nat, j: nat, f: Filter, row: Row)
    requires i <= j <= |runs|
    ensures Newest(Merge(runs, i, j, f), row) ==
            if !Prunable(runs, i, j, f, row) then Newest(runs, row) else if j == |runs| then None else Some(Tombstone)
  {
    Parts(runs, i, j, row);
    MergedParts(runs, i, j, f, j == |runs|, row);
    NewestIn(runs[i..j], row);
    if j == |runs| { assert runs[j..] == [] && Newest(runs[j..], row).None?; }
  }

  /** After a merge every row reads as before, except exactly those the filter prunes, which are gone. */
  lemma MergeKeeps(runs: seq<Run>, i: nat, j: nat, f: Filter, row: Row)
    requires i <= j <= |runs|
    ensures Visible(Merge(runs, i, j, f), row) == if Prunable(runs, i, j, f, row) then None else Visible(runs, row)
  {
    MergeNewest(runs, i, j, f, row);
  }

  /** A merge that may drop never brings an older value back, for any stack, exactly when it reaches the last run. */
  lemma DropExactly(n: nat, i: nat, j: nat)
    requires i < j <= n
    ensures (forall runs: seq<Run>, f, row | |runs| == n ::
               Visible(MergeWith(runs, i, j, f, true), row) in {None, Visible(runs, row)}) <==> j == n
  {
    if j == n {
      forall runs: seq<Run>, f, row | |runs| == n
        ensures Visible(MergeWith(runs, i, j, f, true), row) in {None, Visible(runs, row)}
      {
        MergeKeeps(runs, i, j, f, row);
      }
    } else {
      Resurrects(n, i, j);
    }
  }

  function Stack(n: nat, i: nat, j: nat): seq<Run>
    requires i < j < n
  {
    seq(n, k => if k == i then map[DataRow(0) := Put(Opaque([1]))]
                else if k == j then map[DataRow(0) := Put(Opaque([2]))]
                else map[])
  }

  lemma {:induction false} NewestNone(runs: seq<Run>, row: Row)
    requires forall k | 0 <= k < |runs| :: row !in runs[k]
    ensures Newest(runs, row).None?
    decreases |runs|
  {
    if runs != [] { NewestNone(runs[1..], row); }
  }

  /** A value dropped above an older one uncovers it. */
  lemma Resurrects(n: nat, i: nat, j: nat)
    requires i < j < n
    ensures exists runs: seq<Run>, f, row ::
        |runs| == n && Visible(MergeWith(runs, i, j, f, true), row) !in {None, Visible(runs, row)}
  {
    var runs, row := Stack(n, i, j), DataRow(0);
    var f := Filter({}, {}, 0, None);
    NewestNone(runs[..i], row);
    assert runs[i..j][0] == runs[i] && runs[j..][0] == runs[j];
    assert Newest(runs[i..j], row) == Some(Put(Opaque([1]))) && Newest(runs[j..], row) == Some(Put(Opaque([2])));
    Parts(runs, i, j, row);
    MergedParts(runs, i, j, f, true, row);
    assert Visible(runs, row) == Some(Opaque([1])) && Visible(MergeWith(runs, i, j, f, true), row) == Some(Opaque([2]));
  }

  // ---------------------------------------------------------------- whole runs

  datatype Action = Write(batch: Run) | Compact(i: nat, j: nat, f: Filter)

  /** The stack after a run; compactions of runs that do not exist do nothing. */
  function After(acts: seq<Action>): seq<Run> {
    if acts == [] then []
    else
      var runs, a := After(acts[..|acts| - 1]), acts[|acts| - 1];
      match a
      case Write(batch) => [batch] + runs
      case Compact(i, j, f) => if i <= j <= |runs| then Merge(runs, i, j, f) else runs
  }

  /** The simple view: what was written last. */
  function LastWrite(acts: seq<Action>, row: Row): Option<Cell> {
    if acts == [] then None
    else
      var a := acts[|acts| - 1];
      if a.Write? && row in a.batch then Some(a.batch[row]) else LastWrite(acts[..|acts| - 1], row)
  }

  /** Some compaction since the last write was told to prune it. */
  predicate PrunedSince(acts: seq<Action>, row: Row) {
    acts != [] &&
    (var init, a := acts[..|acts| - 1], acts[|acts| - 1];
     match a
     case Write(batch) => row !in batch && PrunedSince(init, row)
     case Compact(_, _, f) =>
       PrunedSince(init, row) || (LastWrite(init, row).Some? && Judged(f, row, FileOf(LastWrite(init, row).value))))
  }

  /**
    However writes and compactions interleave, a row reads as the last write or not at all, and as
    the last write unless a filter has pruned that very write since.
   */
  lemma {:induction false} NeverResurrects(acts: seq<Action>, row: Row)
    ensures var c := Newest(After(acts), row);
            && (c.Some? && c.value.Put? ==> LastWrite(acts, row) == c)
            && (!PrunedSince(acts, row) ==> c == LastWrite(acts, row))
    decreases |acts|
  {
    hide Judged, Merge, Newest;
    if acts == [] {
      NewestNone([], row);
    } else {
      var init, a := acts[..|acts| - 1], acts[|acts| - 1];
      var runs := After(init);
      NeverResurrects(init, row);
      match a
      case Write(batch) => NewestOnTop(batch, runs, row);
      case Compact(i, j, f) =>
        if i <= j <= |runs| {
          MergeNewest(runs, i, j, f, row);
          Parts(runs, i, j, row);
        }
    }
  }
}
