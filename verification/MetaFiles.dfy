/**
  The meta file: one file per lock epoch, read back as the lexicographically greatest name, and the
  registry of folders it holds.
 */
module MetaFiles {
  import opened Prelude
  import opened Base32Epoch

  const META_PREFIX: string := "bepository-"
  const META_SUFFIX: string := ".toml"

  datatype Folder = Folder(id: nat, title: string)

  /** What the file says; storage keys are base-32 numbers below `nextKey`. */
  datatype Meta = Meta(nextKey: nat, folders: map<string, Folder>)

  const DEFAULT: Meta := Meta(0, map[])

  // ---------------------------------------------------------------- names

  function MetaName(epoch: nat): string { META_PREFIX + (Encode(epoch) + META_SUFFIX) }

  predicate IsMetaName(name: string) {
    && META_PREFIX <= name
    && |name| >= |META_SUFFIX| && name[|name| - |META_SUFFIX|..] == META_SUFFIX
  }

  predicate Less(s: string, t: string) {
    t != [] && (s == [] || s[0] < t[0] || (s[0] == t[0] && Less(s[1..], t[1..])))
  }

  lemma {:induction false} LessIs(s: string, t: string)
    ensures Less(s, t) <==> StringLess(s, t)
    decreases |s|
  {
    if s != [] && t != [] {
      if s[0] < t[0] { assert s[..0] == t[..0]; }
      if s[0] == t[0] {
        LessIs(s[1..], t[1..]);
        if StringLess(s, t) { TailLess(s, t); }
        if StringLess(s[1..], t[1..]) { HeadLess(s, t); }
      }
    }
  }

  lemma TailLess(s: string, t: string)
    requires s != [] && t != [] && s[0] == t[0] && StringLess(s, t)
    ensures StringLess(s[1..], t[1..])
  {
    var s', t' := s[1..], t[1..];
    if k :| 0 <= k < |s| && k < |t| && s[..k] == t[..k] && s[k] < t[k] {
      assert s'[..k - 1] == s[..k][1..] && t'[..k - 1] == t[..k][1..];
    } else {
      assert |s| < |t| && s == t[..|s|];
      assert t'[..|s'|] == t[..|s|][1..];
    }
  }

  lemma HeadLess(s: string, t: string)
    requires s != [] && t != [] && s[0] == t[0] && StringLess(s[1..], t[1..])
    ensures StringLess(s, t)
  {
    var s', t' := s[1..], t[1..];
    if k :| 0 <= k < |s'| && k < |t'| && s'[..k] == t'[..k] && s'[k] < t'[k] {
      assert s[..k + 1] == [s[0]] + s'[..k] && t[..k + 1] == [t[0]] + t'[..k];
    } else {
      assert t[..|s|] == [t[0]] + t'[..|s'|] && s == [s[0]] + s';
    }
  }

  lemma {:induction false} NotLess(a: string, b: string, c: string)
    requires !Less(b, a) && !Less(c, b)
    ensures !Less(c, a)
    decreases |a|
  {
    if a != [] && b != [] && c != [] && a[0] == b[0] == c[0] { NotLess(a[1..], b[1..], c[1..]); }
  }

  /** The last of the meta files in a listing. */
  method LatestName(listing: seq<string>) returns (last: Option<string>)
    ensures last.None? <==> forall n | n in listing :: !IsMetaName(n)
    ensures last.Some? ==> last.value in listing && IsMetaName(last.value)
    ensures last.Some? ==> forall n | n in listing && IsMetaName(n) :: !StringLess(last.value, n)
  {
    last := None;
    for i := 0 to |listing|
      invariant last.None? ==> forall n | n in listing[..i] :: !IsMetaName(n)
      invariant last.Some? ==> last.value in listing && IsMetaName(last.value)
      invariant last.Some? ==> forall n | n in listing[..i] && IsMetaName(n) :: !Less(last.value, n)
    {
      var obj := listing[i];
      assert listing[..i + 1] == listing[..i] + [obj];
      if IsMetaName(obj) && !(last.Some? && Less(obj, last.value)) {
        Irreflexive(obj);
        if last.Some? {
          forall n | n in listing[..i] && IsMetaName(n) ensures !Less(obj, n) { NotLess(n, last.value, obj); }
        }
        last := Some(obj);
      } else if IsMetaName(obj) {
        Asymmetric(obj, last.value);
      }
    }
    assert listing[..|listing|] == listing;
    forall n, m { LessIs(n, m); }
  }

  lemma {:induction false} Irreflexive(s: string)
    ensures !Less(s, s)
    decreases |s|
  {
    if s != [] { Irreflexive(s[1..]); }
  }

  lemma {:induction false} Asymmetric(s: string, t: string)
    requires Less(s, t)
    ensures !Less(t, s)
    decreases |s|
  {
    if s != [] && s[0] == t[0] { Asymmetric(s[1..], t[1..]); }
  }

  /** Among epochs' meta files the last name is the one of the greatest epoch. */
  lemma LatestIsGreatest(epochs: set<nat>, e: nat)
    requires e in epochs && forall x | x in epochs :: x <= MAX_VAL
    requires forall x | x in epochs :: !StringLess(MetaName(e), MetaName(x))
    ensures e == Greatest(epochs) && IsMetaName(MetaName(e))
  {
    var g := Greatest(epochs);
    NameOrder(META_PREFIX, META_SUFFIX, e, g);
    var n := MetaName(e);
    assert n[|n| - |META_SUFFIX|..] == META_SUFFIX;
  }

  // ---------------------------------------------------------------- changes

  predicate HasFolder(m: Meta, id: nat) { exists k :: k in m.folders && m.folders[k].id == id }

  function AddFolder(m: Meta, id: nat, title: string): Meta {
    Meta(m.nextKey + 1, m.folders[Encode(m.nextKey) := Folder(id, title)])
  }

  /** Labels are updated, missing folders added. */
  function EnsureAll(m: Meta, wanted: seq<(nat, string)>): Meta
    decreases |wanted|
  {
    if wanted == [] then m
    else
      var (id, title) := wanted[0];
      EnsureAll(if HasFolder(m, id) then Relabel(m, id, title) else AddFolder(m, id, title), wanted[1..])
  }

  function Relabel(m: Meta, id: nat, title: string): Meta {
    m.(folders := map k | k in m.folders :: if m.folders[k].id == id then Folder(id, title) else m.folders[k])
  }

  function Remove(m: Meta, id: nat): Meta {
    m.(folders := map k | k in m.folders && m.folders[k].id != id :: m.folders[k])
  }

  datatype Op = Register(id: nat, title: string) | Ensure(wanted: seq<(nat, string)>) | Drop(id: nat)

  /** `None` when the change fails: the folder exists, or its key would not fit. */
  function Changed(m: Meta, op: Op): Option<Meta> {
    var n :=
      match op
      case Register(id, title) => if HasFolder(m, id) then m else AddFolder(m, id, title)
      case Ensure(wanted) => EnsureAll(m, wanted)
      case Drop(id) => Remove(m, id);
    if (op.Register? && HasFolder(m, op.id)) || n.nextKey > MAX_VAL + 1 then None else Some(n)
  }

  /** Folder ids are unique and every key was made from a number already passed. */
  predicate RegistryOk(m: Meta) {
    && (forall j, k | j in m.folders && k in m.folders && m.folders[j].id == m.folders[k].id :: j == k)
    && (forall k | k in m.folders :: exists n: nat :: n < m.nextKey && k == Encode(n))
  }

  lemma KeyIsNew(m: Meta)
    requires RegistryOk(m) && m.nextKey <= MAX_VAL
    ensures Encode(m.nextKey) !in m.folders
  {
    if Encode(m.nextKey) in m.folders {
      var n: nat :| n < m.nextKey && Encode(m.nextKey) == Encode(n);
      RoundTrip(n);
      RoundTrip(m.nextKey);
    }
  }

  lemma AddOk(m: Meta, id: nat, title: string)
    requires RegistryOk(m) && m.nextKey <= MAX_VAL && !HasFolder(m, id)
    ensures RegistryOk(AddFolder(m, id, title))
  {
    hide Encode;
    KeyIsNew(m);
    var t := AddFolder(m, id, title);
    forall k | k in t.folders ensures exists n: nat :: n < t.nextKey && k == Encode(n) {
      if k != Encode(m.nextKey) {
        var n: nat :| n < m.nextKey && k == Encode(n);
        assert n < t.nextKey;
      }
    }
  }

  lemma RelabelOk(m: Meta, id: nat, title: string)
    requires RegistryOk(m)
    ensures RegistryOk(Relabel(m, id, title)) && Relabel(m, id, title).nextKey == m.nextKey
  {
    hide Encode;
  }

  lemma {:induction false} EnsureGrows(m: Meta, wanted: seq<(nat, string)>)
    ensures EnsureAll(m, wanted).nextKey >= m.nextKey
    decreases |wanted|
  {
    hide Encode;
    if wanted != [] {
      var (id, title) := wanted[0];
      EnsureGrows(if HasFolder(m, id) then Relabel(m, id, title) else AddFolder(m, id, title), wanted[1..]);
    }
  }

  lemma {:induction false} EnsureOk(m: Meta, wanted: seq<(nat, string)>)
    requires RegistryOk(m) && EnsureAll(m, wanted).nextKey <= MAX_VAL + 1
    ensures RegistryOk(EnsureAll(m, wanted))
    decreases |wanted|
  {
    hide Encode, RegistryOk;
    if wanted != [] {
      var (id, title) := wanted[0];
      var m' := if HasFolder(m, id) then Relabel(m, id, title) else AddFolder(m, id, title);
      EnsureGrows(m', wanted[1..]);
      if HasFolder(m, id) { RelabelOk(m, id, title); } else { AddOk(m, id, title); }
      EnsureOk(m', wanted[1..]);
    }
  }

  lemma ChangedOk(m: Meta, op: Op)
    requires RegistryOk(m) && Changed(m, op).Some?
    ensures RegistryOk(Changed(m, op).value) && m.nextKey <= Changed(m, op).value.nextKey <= MAX_VAL + 1
  {
    hide Encode;
    match op
    case Register(id, title) => AddOk(m, id, title);
    case Ensure(wanted) => EnsureGrows(m, wanted); EnsureOk(m, wanted);
    case Drop(_) =>
  }

  /** The last wish for the folder. */
  predicate LastWish(wanted: seq<(nat, string)>, i: int, id: nat) {
    0 <= i < |wanted| && wanted[i].0 == id && forall j | i < j < |wanted| :: wanted[j].0 != id
  }

  predicate Unwanted(wanted: seq<(nat, string)>, id: nat) { forall j | 0 <= j < |wanted| :: wanted[j].0 != id }

  ghost predicate Titled(m: Meta, wanted: seq<(nat, string)>, t: Meta, k: string)
    requires k in t.folders
  {
    var f := t.folders[k];
    || (exists i :: LastWish(wanted, i, f.id) && f.title == wanted[i].1)
    || (Unwanted(wanted, f.id) && k in m.folders && f == m.folders[k])
  }

  /** Afterwards each wanted folder has the last title wanted for it, and every other folder is as it was. */
  lemma {:induction false} EnsuredTitles(m: Meta, wanted: seq<(nat, string)>)
    requires RegistryOk(m) && EnsureAll(m, wanted).nextKey <= MAX_VAL + 1
    ensures forall k | k in EnsureAll(m, wanted).folders :: Titled(m, wanted, EnsureAll(m, wanted), k)
    ensures forall k | k in m.folders ::
              k in EnsureAll(m, wanted).folders && EnsureAll(m, wanted).folders[k].id == m.folders[k].id
    decreases |wanted|
  {
    hide Encode, RegistryOk;
    if wanted != [] {
      var (id, title) := wanted[0];
      var m' := if HasFolder(m, id) then Relabel(m, id, title) else AddFolder(m, id, title);
      var t, rest := EnsureAll(m, wanted), wanted[1..];
      EnsureGrows(m', rest);
      if HasFolder(m, id) { RelabelOk(m, id, title); } else { AddOk(m, id, title); KeyIsNew(m); }
      EnsuredTitles(m', rest);
      forall k | k in t.folders ensures Titled(m, wanted, t, k) {
        var f := t.folders[k];
        assert Titled(m', rest, t, k);
        if i :| LastWish(rest, i, f.id) && f.title == rest[i].1 {
          assert LastWish(wanted, i + 1, f.id);
        } else if f.id == id {
          assert LastWish(wanted, 0, f.id);
        }
      }
    }
  }

  // ---------------------------------------------------------------- processes

  datatype File = File(version: nat, meta: Meta)

  datatype Stage = Writing | Cleaning | Ready

  /** At most one process is up, as the distributed lock has it. */
  datatype Process = Down | Up(epoch: nat, version: nat, cache: Meta, stage: Stage)

  /** `committed` is what the last change put in the file, `fence` the version of the last finished activation. */
  datatype State = State(files: map<nat, File>, process: Process, committed: Meta, fence: nat)

  datatype Action =
    | Activate(epoch: nat, version: nat)  // reads the latest file and passes the version fence
    | WriteOwn                            // writes it back under the new epoch
    | Delete(epoch: nat)                  // removes one file of another epoch
    | Cleaned
    | Modify(op: Op)
    | Unheard(op: Op)                     // the same, but the put is reported as failed, and the cache stays
    | Crash

  /**
    What is asked of a run beyond the code itself.  `cleanFirst`, as the callers have it: nothing is
    modified before activation has finished.  `synced`: a change starts from what the file holds.
   */
  datatype Premises = Premises(cleanFirst: bool, synced: bool)

  const CODE: Premises := Premises(false, false)

  function Latest(files: map<nat, File>): Option<File> {
    if files.Keys == {} then None else Some(files[Greatest(files.Keys)])
  }

  function ReadMeta(files: map<nat, File>): Meta {
    var f := Latest(files);
    if f.Some? then f.value.meta else DEFAULT
  }

  /** The process may change the registry. */
  predicate CanChange(s: State, op: Op, pre: Premises) {
    && s.process.Up? && (if pre.cleanFirst then s.process.stage.Ready? else !s.process.stage.Writing?)
    && (pre.synced ==> s.process.epoch in s.files && s.files[s.process.epoch].meta == s.process.cache)
    && Changed(s.process.cache, op).Some?
  }

  predicate Enabled(s: State, a: Action, pre: Premises) {
    match a
    case Activate(e, v) => s.process.Down? && e <= MAX_VAL
      && (Latest(s.files).Some? ==> Latest(s.files).value.version <= v)
    case WriteOwn => s.process.Up? && s.process.stage.Writing?
    case Delete(e) => s.process.Up? && s.process.stage.Cleaning? && e in s.files && e != s.process.epoch
    case Cleaned => s.process.Up? && s.process.stage.Cleaning? && s.files.Keys <= {s.process.epoch}
    case Modify(op) => CanChange(s, op, pre)
    case Unheard(op) => CanChange(s, op, pre)
    case Crash => s.process.Up?
  }

  function Next(s: State, a: Action): State
    requires Enabled(s, a, CODE)
  {
    match a
    case Activate(e, v) => s.(process := Up(e, v, ReadMeta(s.files), Writing))
    case WriteOwn =>
      s.(files := s.files[s.process.epoch := File(s.process.version, s.process.cache)],
         process := s.process.(stage := Cleaning))
    case Delete(e) => s.(files := s.files - {e})
    case Cleaned => s.(process := s.process.(stage := Ready), fence := s.process.version)
    case Modify(op) =>
      var m := Changed(s.process.cache, op).value;
      s.(files := s.files[s.process.epoch := File(s.process.version, m)], process := s.process.(cache := m),
         committed := m)
    case Unheard(op) =>
      var m := Changed(s.process.cache, op).value;
      s.(files := s.files[s.process.epoch := File(s.process.version, m)], committed := m)
    case Crash => s.(process := Down)
  }

  lemma Weaken(s: State, a: Action, pre: Premises)
    requires Enabled(s, a, pre)
    ensures Enabled(s, a, CODE)
  {}

  ghost predicate Runs(s: State, acts: seq<Action>, t: State, pre: Premises)
    decreases |acts|
  {
    if acts == [] then t == s
    else Enabled(s, acts[0], pre) && Runs(Next(s, acts[0]), acts[1..], t, pre)
  }

  function Initial(): State { State(map[], Down, DEFAULT, 0) }

  // ---------------------------------------------------------------- the invariant

  /** Every file holds the committed content, and without files there is none. */
  predicate FilesOk(s: State) {
    && (forall e | e in s.files :: s.files[e].meta == s.committed && s.fence <= s.files[e].version)
    && (s.files.Keys == {} ==> s.committed == DEFAULT && s.fence == 0)
  }

  /** Until it has cleaned, a process knows the committed content. */
  predicate ProcessOk(s: State) {
    s.process.Up? ==>
      && (s.process.stage.Ready? || s.process.cache == s.committed) && s.fence <= s.process.version
      && (!s.process.stage.Writing? ==>
          s.process.epoch in s.files && s.files[s.process.epoch].version == s.process.version)
      && (s.process.stage.Ready? ==> s.files.Keys == {s.process.epoch})
  }

  predicate MetaOk(m: Meta) { RegistryOk(m) && m.nextKey <= MAX_VAL + 1 }

  predicate KeysOk(s: State) { MetaOk(s.committed) && (s.process.Up? ==> MetaOk(s.process.cache)) }

  predicate Inv(s: State) { FilesOk(s) && ProcessOk(s) && KeysOk(s) }

  lemma ChangeKeeps(s: State, a: Action, pre: Premises)
    requires Inv(s) && Enabled(s, a, pre) && pre.cleanFirst && (a.Modify? || a.Unheard?)
    ensures Inv(Next(s, a))
  {
    hide Changed, RegistryOk;
    ChangedOk(s.process.cache, a.op);
  }

  lemma Step(s: State, a: Action, pre: Premises)
    requires Enabled(s, a, pre) && pre.cleanFirst && Inv(s)
    ensures Inv(Next(s, a))
  {
    hide Changed, MetaOk, Greatest;
    match a
    case Modify(_) => ChangeKeeps(s, a, pre);
    case Unheard(_) => ChangeKeeps(s, a, pre);
    case Activate(_, _) => LatestRead(s);
    case Delete(e) => assert s.process.epoch in Next(s, a).files.Keys;
    case Cleaned => assert s.files.Keys == {s.process.epoch};
    case WriteOwn =>
    case Crash =>
  }

  lemma LatestRead(s: State)
    requires FilesOk(s)
    ensures ReadMeta(s.files) == s.committed
    ensures Latest(s.files).Some? ==> s.fence <= Latest(s.files).value.version
    ensures Latest(s.files).None? ==> s.fence == 0
  {}

  lemma {:induction false} RunKeeps(s: State, acts: seq<Action>, t: State, pre: Premises)
    requires Runs(s, acts, t, pre) && pre.cleanFirst && Inv(s)
    ensures Inv(t)
    decreases |acts|
  {
    hide Inv, Next, Enabled;
    if acts != [] {
      Weaken(s, acts[0], pre);
      Step(s, acts[0], pre);
      RunKeeps(Next(s, acts[0]), acts[1..], t, pre);
    }
  }

  // ---------------------------------------------------------------- what runs guarantee

  ghost predicate SafeUnder(pre: Premises) {
    forall acts, s | Runs(Initial(), acts, s, pre) :: ReadMeta(s.files) == s.committed
  }

  lemma InitialOk()
    ensures Inv(Initial())
  {}

  /** At every crash point, whatever the order of epochs, the latest file holds the last committed content. */
  lemma LatestIsCommitted(acts: seq<Action>, s: State, pre: Premises)
    requires Runs(Initial(), acts, s, pre) && pre.cleanFirst
    ensures ReadMeta(s.files) == s.committed
  {
    hide Runs;
    InitialOk();
    RunKeeps(Initial(), acts, s, pre);
  }

  /** Folder ids are unique in every committed registry. */
  lemma FoldersUnique(acts: seq<Action>, s: State, pre: Premises)
    requires Runs(Initial(), acts, s, pre) && pre.cleanFirst
    ensures forall j, k | j in s.committed.folders && k in s.committed.folders
      && s.committed.folders[j].id == s.committed.folders[k].id :: j == k
  {
    InitialOk();
    RunKeeps(Initial(), acts, s, pre);
  }

  /** Each key of the later registry names the folder it named before, or was made from a number not yet passed then. */
  ghost predicate Evolves(m: Meta, n: Meta) {
    && m.nextKey <= n.nextKey
    && forall k | k in n.folders ::
         (k in m.folders && n.folders[k].id == m.folders[k].id) || exists i: nat ::
             m.nextKey <= i < n.nextKey && k == Encode(i)
  }

  lemma EvolvesOn(l: Meta, m: Meta, n: Meta)
    requires Evolves(l, m) && Evolves(m, n)
    ensures Evolves(l, n)
  {
    hide Encode;
    forall k | k in n.folders
      ensures (k in l.folders && n.folders[k].id == l.folders[k].id) || exists i: nat ::
          l.nextKey <= i < n.nextKey && k == Encode(i)
    {
      if i: nat :| m.nextKey <= i < n.nextKey && k == Encode(i) {
        assert l.nextKey <= i < n.nextKey;
      } else if i: nat :| l.nextKey <= i < m.nextKey && k == Encode(i) {
        assert l.nextKey <= i < n.nextKey;
      }
    }
  }

  lemma AddEvolves(m: Meta, id: nat, title: string)
    ensures Evolves(m, AddFolder(m, id, title))
  {
    hide Encode;
    var n := AddFolder(m, id, title);
    forall k | k in n.folders
      ensures (k in m.folders && n.folders[k].id == m.folders[k].id) || exists i: nat ::
          m.nextKey <= i < n.nextKey && k == Encode(i)
    {
      if k == Encode(m.nextKey) { assert m.nextKey <= m.nextKey < n.nextKey; }
    }
  }

  lemma {:induction false} EnsureEvolves(m: Meta, wanted: seq<(nat, string)>)
    ensures Evolves(m, EnsureAll(m, wanted))
    decreases |wanted|
  {
    if wanted != [] {
      var (id, title) := wanted[0];
      var m' := if HasFolder(m, id) then Relabel(m, id, title) else AddFolder(m, id, title);
      if HasFolder(m, id) { assert Evolves(m, m'); } else { AddEvolves(m, id, title); }
      hide Evolves, Encode, AddFolder, Relabel;
      EnsureEvolves(m', wanted[1..]);
      EvolvesOn(m, m', EnsureAll(m', wanted[1..]));
    }
  }

  lemma StepEvolves(s: State, a: Action, pre: Premises)
    requires Enabled(s, a, pre) && pre.cleanFirst && pre.synced && Inv(s)
    ensures Evolves(s.committed, Next(s, a).committed)
  {
    if a.Modify? || a.Unheard? {
      assert s.process.cache == s.committed;
      match a.op
      case Register(id, title) => AddEvolves(s.committed, id, title);
      case Ensure(wanted) => EnsureEvolves(s.committed, wanted);
      case Drop(_) =>
    }
  }

  lemma {:induction false} RunEvolves(s: State, acts: seq<Action>, t: State, pre: Premises)
    requires Runs(s, acts, t, pre) && pre.cleanFirst && pre.synced && Inv(s)
    ensures Evolves(s.committed, t.committed)
    decreases |acts|
  {
    if acts != [] {
      hide Inv, Next, Enabled, Evolves;
      Weaken(s, acts[0], pre);
      Step(s, acts[0], pre);
      StepEvolves(s, acts[0], pre);
      RunEvolves(Next(s, acts[0]), acts[1..], t, pre);
      EvolvesOn(s.committed, Next(s, acts[0]).committed, t.committed);
    }
  }

  /** A key of an earlier registry was made from a number that later ones have passed. */
  lemma OldKey(m: Meta, n: Meta, key: string)
    requires RegistryOk(m) && key in m.folders && m.nextKey <= n.nextKey <= MAX_VAL + 1
    ensures forall i: nat | n.nextKey <= i <= MAX_VAL :: key != Encode(i)
  {
    hide Encode;
    var x: nat :| x < m.nextKey && key == Encode(x);
    RoundTrip(x);
    forall i: nat | n.nextKey <= i <= MAX_VAL ensures key != Encode(i) { RoundTrip(i); }
  }

  /** In a run that passes `s`, then `m`, then `t`: the key keeps its folder, and once gone it never comes back. */
  predicate KeyKept(s: State, m: State, t: State, key: string) {
    && (key in s.committed.folders && key in t.committed.folders ==> key in m.committed.folders)
    && (key in s.committed.folders && key in m.committed.folders ==>
          m.committed.folders[key].id == s.committed.folders[key].id)
  }

  /** A storage key names the same folder for ever, if every change starts from what the file holds. */
  lemma KeysNeverReused(a: seq<Action>, s: State, b: seq<Action>, m: State, c: seq<Action>, t: State, key: string,
                        pre: Premises)
    requires Runs(Initial(), a, s, pre) && Runs(s, b, m, pre) && Runs(m, c, t, pre) && pre.cleanFirst && pre.synced
    ensures KeyKept(s, m, t, key)
  {
    hide Runs, Encode, RegistryOk, FilesOk, ProcessOk;
    InitialOk();
    RunKeeps(Initial(), a, s, pre);
    RunKeeps(s, b, m, pre);
    RunKeeps(m, c, t, pre);
    RunEvolves(s, b, m, pre);
    RunEvolves(m, c, t, pre);
    if key in s.committed.folders {
      OldKey(s.committed, s.committed, key);
      OldKey(s.committed, m.committed, key);
    }
  }

  /** No process older than the last one that finished its activation gets past the fence. */
  lemma FenceHolds(acts: seq<Action>, s: State, e: nat, v: nat, pre: Premises)
    requires Runs(Initial(), acts, s, pre) && pre.cleanFirst && Enabled(s, Activate(e, v), pre)
    ensures v >= s.fence
  {
    hide Runs;
    InitialOk();
    RunKeeps(Initial(), acts, s, pre);
  }

  // ---------------------------------------------------------------- why cleaning comes first

  ghost predicate Reaches(s: State, t: State, pre: Premises) { exists acts :: Runs(s, acts, t, pre) }

  lemma {:induction false} RunsThen(s: State, acts: seq<Action>, t: State, a: Action, pre: Premises)
    requires Runs(s, acts, t, pre) && Enabled(t, a, pre)
    ensures Enabled(t, a, CODE) && Runs(s, acts + [a], Next(t, a), pre)
    decreases |acts|
  {
    hide Enabled, Next;
    Weaken(t, a, pre);
    if acts == [] {
      assert [a][1..] == [];
      assert Runs(Next(s, a), [], Next(s, a), pre);
    } else {
      Weaken(s, acts[0], pre);
      assert (acts + [a])[0] == acts[0] && (acts + [a])[1..] == acts[1..] + [a];
      RunsThen(Next(s, acts[0]), acts[1..], t, a, pre);
    }
  }

  lemma Then(s: State, t: State, a: Action, pre: Premises)
    requires Reaches(s, t, pre) && Enabled(t, a, pre)
    ensures Enabled(t, a, CODE) && Reaches(s, Next(t, a), pre)
  {
    hide Enabled, Next;
    var acts :| Runs(s, acts, t, pre);
    RunsThen(s, acts, t, a, pre);
  }

  lemma ReachesItself(s: State, pre: Premises)
    ensures Reaches(s, s, pre)
  {
    assert Runs(s, [], s, pre);
  }

  lemma Refute(s: State, pre: Premises)
    requires Reaches(Initial(), s, pre) && ReadMeta(s.files) != s.committed
    ensures !SafeUnder(pre)
  {
    hide Runs, ReadMeta;
    var acts :| Runs(Initial(), acts, s, pre);
  }

  /** From `r` a process starts and writes its own file. */
  lemma Starts(r: State, s: State, e: nat, pre: Premises) returns (t: State)
    requires Reaches(r, s, pre) && s.process.Down? && e <= MAX_VAL
    requires Latest(s.files).Some? ==> Latest(s.files).value.version <= 1
    ensures var m := ReadMeta(s.files);
            Reaches(r, t, pre) && t == s.(files := s.files[e := File(1, m)], process := Up(e, 1, m, Cleaning))
  {
    hide Reaches;
    Then(r, s, Activate(e, 1), pre);
    t := Next(s, Activate(e, 1));
    Then(r, t, WriteOwn, pre);
    t := Next(t, WriteOwn);
  }

  lemma Stops(r: State, s: State, pre: Premises) returns (t: State)
    requires Reaches(r, s, pre) && s.process.Up?
    ensures Reaches(r, t, pre) && t == s.(process := Down)
  {
    hide Reaches;
    Then(r, s, Crash, pre);
    t := Next(s, Crash);
  }

  /** An activation in epoch 5 crashes before it has cleaned; one in epoch 3 has written its own file. */
  lemma SecondProcess(pre: Premises) returns (s: State)
    ensures Reaches(Initial(), s, pre)
    ensures s == State(map[5 := File(1, DEFAULT), 3 := File(1, DEFAULT)], Up(3, 1, DEFAULT, Cleaning), DEFAULT, 0)
  {
    hide Reaches;
    ReachesItself(Initial(), pre);
    s := Starts(Initial(), Initial(), 5, pre);
    s := Stops(Initial(), s, pre);
    assert 5 in s.files.Keys && Greatest(s.files.Keys) == 5;
    s := Starts(Initial(), s, 3, pre);
  }

  function Just(id: nat): Meta { AddFolder(DEFAULT, id, "") }

  lemma FirstFolder(id: nat)
    ensures Changed(DEFAULT, Register(id, "")) == Some(Just(id))
    ensures Encode(0) in Just(id).folders && Just(id).folders[Encode(0)].id == id && Just(id).nextKey == 1
  {
    assert !HasFolder(DEFAULT, id);
  }

  /** A process that knows of no folder registers one. */
  lemma Registers(r: State, s: State, id: nat, pre: Premises) returns (t: State)
    requires Reaches(r, s, pre) && s.process.Up? && s.process.cache == DEFAULT && !s.process.stage.Writing?
    requires pre.cleanFirst ==> s.process.stage.Ready?
    requires pre.synced ==> s.process.epoch in s.files && s.files[s.process.epoch].meta == DEFAULT
    ensures Reaches(r, t, pre) && t == s.(files := s.files[s.process.epoch := File(s.process.version, Just(id))],
                                          process := s.process.(cache := Just(id)), committed := Just(id))
  {
    hide Reaches, Encode, AddFolder, Changed;
    FirstFolder(id);
    Then(r, s, Modify(Register(id, "")), pre);
    t := Next(s, Modify(Register(id, "")));
  }

  /** A change made while a later epoch's file is still there is not read back. */
  lemma EarlyChange(pre: Premises) returns (s: State)
    requires !pre.cleanFirst
    ensures Reaches(Initial(), s, pre) && s.process.Up? && s.committed == Just(1)
    ensures s.files == map[5 := File(1, DEFAULT), 3 := File(1, Just(1))] && ReadMeta(s.files) == DEFAULT
  {
    hide Reaches, Encode, AddFolder;
    s := SecondProcess(pre);
    s := Registers(Initial(), s, 1, pre);
    assert 5 in s.files.Keys && s.files.Keys == {3, 5};
    assert Greatest(s.files.Keys) == 5;
  }

  /**
    The latest file holds the last change in every run exactly because no change is made before
    cleaning has finished.
   */
  lemma CommittedExactly(pre: Premises)
    ensures SafeUnder(pre) <==> pre.cleanFirst
  {
    hide Runs, Reaches, ReadMeta, Encode;
    if pre.cleanFirst {
      forall acts, s | Runs(Initial(), acts, s, pre) ensures ReadMeta(s.files) == s.committed {
        LatestIsCommitted(acts, s, pre);
      }
    } else {
      var s := EarlyChange(pre);
      assert s.committed.nextKey == 1;
      Refute(s, pre);
    }
  }

  // ---------------------------------------------------------------- why changes start from the file

  ghost predicate KeysSafeUnder(pre: Premises) {
    forall s, m, t, key | Reaches(Initial(), s, pre) && Reaches(s, m, pre) && Reaches(m, t, pre) ::
      KeyKept(s, m, t, key)
  }

  lemma KeyMoved(s: State, t: State, pre: Premises)
    requires Reaches(Initial(), s, pre) && Reaches(s, t, pre) && s.committed == Just(1) && t.committed == Just(2)
    ensures !KeysSafeUnder(pre)
  {
    hide Reaches, Encode;
    FirstFolder(1);
    FirstFolder(2);
    ReachesItself(t, pre);
    assert !KeyKept(s, t, t, Encode(0));
  }

  /** A change that was not read back: the next process gives its key to another folder. */
  lemma EarlyChangeReuses(pre: Premises)
    requires !pre.cleanFirst
    ensures !KeysSafeUnder(pre)
  {
    hide Reaches, Encode, KeysSafeUnder, ReadMeta, AddFolder;
    var s := EarlyChange(pre);
    assert s.files.Keys == {3, 5} && Greatest({3, 5}) == 5;
    ReachesItself(s, pre);
    var t := Stops(s, s, pre);
    t := Starts(s, t, 7, pre);
    t := Registers(s, t, 2, pre);
    KeyMoved(s, t, pre);
  }

  /** A process alone, ready. */
  lemma ReadyProcess(pre: Premises) returns (s: State)
    ensures Reaches(Initial(), s, pre) && s == State(map[0 := File(1, DEFAULT)], Up(0, 1, DEFAULT, Ready), DEFAULT, 1)
  {
    hide Reaches;
    ReachesItself(Initial(), pre);
    s := Starts(Initial(), Initial(), 0, pre);
    Then(Initial(), s, Cleaned, pre);
    s := Next(s, Cleaned);
  }

  /** The put of one folder is reported as failed but took effect; the next folder gets the same key. */
  lemma StaleChangeReuses(pre: Premises)
    requires !pre.synced
    ensures !KeysSafeUnder(pre)
  {
    hide Reaches, Encode, KeysSafeUnder, AddFolder, Changed;
    var s := ReadyProcess(pre);
    FirstFolder(1);
    Then(Initial(), s, Unheard(Register(1, "")), pre);
    s := Next(s, Unheard(Register(1, "")));
    ReachesItself(s, pre);
    var t := Registers(s, s, 2, pre);
    KeyMoved(s, t, pre);
  }

  /**
    Storage keys are never reused, in any run, exactly if nothing is changed before cleaning has finished
    and every change starts from what the file holds.
   */
  lemma KeysExactly(pre: Premises)
    ensures KeysSafeUnder(pre) <==> pre.cleanFirst && pre.synced
  {
    hide Runs, KeyKept;
    if !pre.cleanFirst {
      EarlyChangeReuses(pre);
    } else if !pre.synced {
      StaleChangeReuses(pre);
    } else {
      forall s, m, t, key | Reaches(Initial(), s, pre) && Reaches(s, m, pre) && Reaches(m, t, pre)
        ensures KeyKept(s, m, t, key)
      {
        var a :| Runs(Initial(), a, s, pre);
        var b :| Runs(s, b, m, pre);
        var c :| Runs(m, c, t, pre);
        KeysNeverReused(a, s, b, m, c, t, key, pre);
      }
    }
  }

  /** A process whose puts are all reported as they are starts every change from what its file holds. */
  lemma {:induction false} HeardIsSynced(s: State, acts: seq<Action>, t: State, pre: Premises)
    requires pre.cleanFirst && Runs(s, acts, t, pre) && Inv(s) && (s.process.Up? ==> s.process.cache == s.committed)
    requires forall i | 0 <= i < |acts| :: !acts[i].Unheard?
    ensures Runs(s, acts, t, Premises(true, true))
    decreases |acts|
  {
    hide Inv, Changed, Greatest;
    if acts != [] {
      Weaken(s, acts[0], pre);
      Step(s, acts[0], pre);
      assert Enabled(s, acts[0], Premises(true, true)) by { InvFiles(s); }
      var n := Next(s, acts[0]);
      assert n.process.Up? ==> n.process.cache == n.committed by { InvFiles(s); LatestRead(s); }
      forall i | 0 <= i < |acts[1..]| ensures !acts[1..][i].Unheard? { assert acts[1..][i] == acts[i + 1]; }
      HeardIsSynced(n, acts[1..], t, pre);
    }
  }

  lemma InvFiles(s: State)
    requires Inv(s)
    ensures FilesOk(s) && (s.process.Up? && s.process.stage.Ready? ==> s.process.epoch in s.files)
  {}

  // ---------------------------------------------------------------- the storage as an object

  lemma AddHas(m: Meta, id: nat, title: string, x: nat)
    requires RegistryOk(m) && m.nextKey <= MAX_VAL
    ensures HasFolder(AddFolder(m, id, title), x) <==> HasFolder(m, x) || x == id
  {
    hide Encode;
    KeyIsNew(m);
    var t := AddFolder(m, id, title);
    assert t.folders[Encode(m.nextKey)].id == id;
    if k :| k in m.folders && m.folders[k].id == x { assert t.folders[k] == m.folders[k]; }
  }

  lemma RelabelHas(m: Meta, id: nat, title: string, x: nat)
    ensures HasFolder(Relabel(m, id, title), x) <==> HasFolder(m, x)
  {
    var t := Relabel(m, id, title);
    if k :| k in m.folders && m.folders[k].id == x { assert t.folders[k].id == x; }
    if k :| k in t.folders && t.folders[k].id == x { assert m.folders[k].id == x; }
  }

  datatype Registration = Registered(key: string) | Exists | KeyTooLarge

  class Storage {
    var files: map<nat, File>
    var process: Process
    var objects: set<(string, string)>  // storage key and path of the folders' own objects

    ghost predicate Active()
      reads this
    {
      process.Up? && process.stage.Ready? && RegistryOk(process.cache) && process.cache.nextKey <= MAX_VAL + 1
    }

    constructor (files: map<nat, File>, objects: set<(string, string)>)
      ensures this.files == files && process == Down && this.objects == objects
    {
      this.files, process, this.objects := files, Down, objects;
    }

    /** Refused without a trace by a newer format; otherwise one file is left, under the new epoch. */
    method Activate(epoch: nat, version: nat) returns (ok: bool)
      requires process.Down?
      modifies this`files, this`process
      ensures ok <==> (Latest(old(files)).Some? ==> Latest(old(files)).value.version <= version)
      ensures !ok ==> files == old(files) && process == Down
      ensures ok ==> files == map[epoch := File(version, ReadMeta(old(files)))]
      ensures ok ==> process == Up(epoch, version, ReadMeta(old(files)), Ready)
    {
      var f := Latest(files);
      if f.Some? && f.value.version > version { return false; }
      var m := ReadMeta(files);
      files := files[epoch := File(version, m)];
      var others := files.Keys - {epoch};
      while others != {}
        invariant others <= files.Keys && files.Keys == others + {epoch} && epoch !in others
          && files[epoch] == File(version, m)
        decreases others
      {
        var e: nat :| e in others;
        files, others := files - {e}, others - {e};
      }
      assert files == map[epoch := File(version, m)];
      process := Up(epoch, version, m, Ready);
      ok := true;
    }

    /** The file is replaced first, the cached copy after it. */
    method Commit(m: Meta)
      requires process.Up?
      modifies this`files, this`process
      ensures process == old(process).(cache := m)
      ensures files == old(files)[old(process.epoch) := File(old(process.version), m)]
    {
      files := files[process.epoch := File(process.version, m)];
      process := process.(cache := m);
    }

    /** A new key, unless the folder exists or the key would not fit in 40 bits, where the original panics. */
    method RegisterFolder(id: nat, title: string) returns (r: Registration)
      requires Active()
      modifies this`files, this`process
      ensures Active() && (r.Exists? <==> HasFolder(old(process.cache), id))
      ensures r.KeyTooLarge? <==> !HasFolder(old(process.cache), id) && old(process.cache.nextKey) > MAX_VAL
      ensures !r.Registered? ==> files == old(files) && process == old(process)
      ensures r.Registered? ==>
          r.key !in old(process.cache).folders && process.cache == AddFolder(old(process.cache), id, title)
                                && r.key in process.cache.folders && process.cache.folders[r.key] == Folder(id, title)
                                && files == old(files)[process.epoch := File(process.version, process.cache)]
    {
      hide Encode;
      var m := process.cache;
      if HasFolder(m, id) { return Exists; }
      if m.nextKey > MAX_VAL { return KeyTooLarge; }
      KeyIsNew(m);
      AddOk(m, id, title);
      Commit(AddFolder(m, id, title));
      r := Registered(Encode(m.nextKey));
    }

    /**
      Which of the wanted folders were new, each id created at most once; `None` where the original
      panics over a key.
     */
    method EnsureFolders(wanted: seq<(nat, string)>) returns (created: Option<seq<bool>>)
      requires Active()
      modifies this`files, this`process
      ensures Active() && (created.None? <==> Changed(old(process.cache), Ensure(wanted)).None? && wanted != [])
      ensures created.None? || wanted == [] ==> files == old(files) && process == old(process)
      ensures created.Some? && wanted != [] ==>
                && process.cache == EnsureAll(old(process.cache), wanted)
                && files == old(files)[process.epoch := File(process.version, process.cache)]
      ensures created.Some? ==>
                && |created.value| == |wanted|
                && (forall i | 0 <= i < |wanted| :: created.value[i] <==> IsNew(old(process.cache), wanted, i))
                && forall i | 0 <= i < |wanted| :: HasFolder(process.cache, wanted[i].0)
    {
      hide Encode, RegistryOk, HasFolder, AddFolder, Relabel;
      if wanted == [] { return Some([]); }
      ghost var start := process.cache;
      var m, done: seq<bool> := process.cache, [];
      for i := 0 to |wanted|
        invariant |done| == i && RegistryOk(m) && (i == 0 ==> m == start)
        invariant EnsureAll(m, wanted[i..]) == EnsureAll(start, wanted)
        invariant forall x: nat :: HasFolder(m, x) <==> HasFolder(start, x) || Wanted(wanted, i, x)
        invariant forall k | 0 <= k < i :: done[k] <==> IsNew(start, wanted, k)
        invariant m.nextKey <= MAX_VAL + 1 && start == old(process.cache) && files == old(files)
          && process == old(process)
      {
        var (id, title) := wanted[i];
        var known := HasFolder(m, id);
        assert !known <==> IsNew(start, wanted, i);
        forall x: nat
          ensures Wanted(wanted, i + 1, x) <==> Wanted(wanted, i, x) || x == id
        {
          WantedStep(wanted, i, x);
        }
        assert wanted[i..][0] == wanted[i] && wanted[i..][1..] == wanted[i + 1..];
        if !known && m.nextKey > MAX_VAL {
          AddNext(m, id, title);
          EnsureGrows(AddFolder(m, id, title), wanted[i + 1..]);
          return None;
        }
        var next := if known then Relabel(m, id, title) else AddFolder(m, id, title);
        forall x: nat
          ensures HasFolder(next, x) <==> HasFolder(m, x) || x == id
        {
          if known { RelabelHas(m, id, title, x); } else { AddHas(m, id, title, x); }
        }
        if known {
          RelabelOk(m, id, title);
        } else {
          AddOk(m, id, title);
          AddNext(m, id, title);
        }
        m := next;
        done := done + [!known];
      }
      assert wanted[|wanted|..] == [];
      Commit(m);
      created := Some(done);
    }

    /** The folder's objects go first, then its entry; its key is not free again. */
    method RemoveFolder(id: nat) returns (ok: bool)
      requires Active()
      modifies this
      ensures Active() && (ok <==> HasFolder(old(process.cache), id)) && !HasFolder(process.cache, id)
      ensures !ok ==> files == old(files) && process == old(process) && objects == old(objects)
      ensures forall k | k in old(process.cache).folders && old(process.cache).folders[k].id != id ::
                k in process.cache.folders && process.cache.folders[k] == old(process.cache).folders[k]
      ensures ok ==> process.cache == Remove(old(process.cache), id)
                     && files == old(files)[process.epoch := File(process.version, process.cache)]
      ensures forall o | o in old(objects) ::
                o in objects <==> !(o.0 in old(process.cache).folders && old(process.cache).folders[o.0].id == id)
      ensures objects <= old(objects)
    {
      var m := process.cache;
      ok := HasFolder(m, id);
      if ok {
        var key :| key in m.folders && m.folders[key].id == id;
        var left := set o | o in objects && o.0 == key;
        while left != {}
          invariant left <= objects <= old(objects)
          invariant forall o | o in old(objects) :: o in objects <==> o.0 != key || o in left
          invariant process == old(process) && files == old(files)
          decreases left
        {
          var o: (string, string) :| o in left;
          objects, left := objects - {o}, left - {o};
        }
        Commit(Remove(m, id));
      }
    }
  }

  predicate Wanted(wanted: seq<(nat, string)>, n: nat, id: nat)
    requires n <= |wanted|
  {
    exists j :: 0 <= j < n && wanted[j].0 == id
  }

  lemma WantedStep(wanted: seq<(nat, string)>, i: nat, id: nat)
    requires i < |wanted|
    ensures Wanted(wanted, i + 1, id) <==> Wanted(wanted, i, id) || id == wanted[i].0
  {}

  /** The folder is not registered and not wanted earlier in the list. */
  ghost predicate IsNew(m: Meta, wanted: seq<(nat, string)>, i: nat)
    requires i < |wanted|
  {
    !HasFolder(m, wanted[i].0) && !Wanted(wanted, i, wanted[i].0)
  }

  lemma AddNext(m: Meta, id: nat, title: string)
    ensures AddFolder(m, id, title).nextKey == m.nextKey + 1
  {}
}
