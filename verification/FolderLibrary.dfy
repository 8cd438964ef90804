/**
  A folder as its users see it: named documents that are laid-out lists of hashes, the hashes that have
  arrived, and what each hash stands for.  No pointers, numbers, sequences, references or jobs.

  Batches, flushes and crashes are the same as in `FolderRuns`, and so is that a conflict copy, or a
  document to be written anew, is read at one moment and written at another.
 */
module FolderLibrary {
  import opened Prelude
  import opened Files
  import opened VersionVectors
  import opened FolderModel

  /** `layout` is where each hash goes and how many bytes it stands for. */
  datatype Doc = Doc(
    version: Option<Vector>,
    deleted: bool,
    size: int,
    layout: seq<(int, int)>,
    hashes: seq<Hash>,
    has: set<Hash>)

  datatype Shelf = Shelf(committed: map<Name, Doc>, staged: map<(Epoch, Name), Doc>)

  /** A conflict copy with what it was found to have. */
  datatype Note = Note(f: WireInfo, doc: Doc)

  datatype Library = Library(
    history: seq<Shelf>,
    flushed: nat,
    epoch: Epoch,
    content: map<Hash, Bytes>,
    notes: set<Note>,
    held: set<(Name, Doc)>)

  predicate Shaped(l: Library) { l.flushed < |l.history| }

  function Top(l: Library): Shelf
    requires Shaped(l)
  {
    l.history[|l.history| - 1]
  }

  /** A peer's file, before any of its blocks. */
  function Blank(f: WireInfo): Doc {
    Doc(f.version, f.deleted, f.size,
        seq(|f.blocks|, i requires 0 <= i < |f.blocks| => (f.blocks[i].offset, f.blocks[i].size)),
        seq(|f.blocks|, i requires 0 <= i < |f.blocks| => f.blocks[i].hash), {})
  }

  /** The document with what another one has of its hashes. */
  function Inheriting(d: Doc, from: Doc): Doc { d.(has := d.has + set h | h in d.hashes && h in from.has) }

  /** A commit keeps what the entry before it had. */
  function Committed(l: Shelf, name: Name, d: Doc): Shelf {
    l.(committed := l.committed[name := if name in l.committed then Inheriting(d, l.committed[name]) else d])
  }

  /** The staged file takes the place of the committed one. */
  function Promoted(l: Shelf, e: Epoch, name: Name): Shelf
    requires (e, name) in l.staged
  {
    Committed(l.(staged := l.staged - {(e, name)}), name, l.staged[(e, name)])
  }

  function Arrived(d: Doc, hash: Hash): Doc { d.(has := d.has + {hash}) }

  /** A block arrives for the staged file of the name if there is one, and for the committed one otherwise. */
  function Linked(l: Shelf, e: Epoch, name: Name, hash: Hash): Shelf {
    if (e, name) in l.staged then l.(staged := l.staged[(e, name) := Arrived(l.staged[(e, name)], hash)])
    else if name in l.committed then l.(committed := l.committed[name := Arrived(l.committed[name], hash)])
    else l
  }

  predicate CanArrive(l: Shelf, e: Epoch, name: Name, hash: Hash) {
    if (e, name) in l.staged then hash in l.staged[(e, name)].hashes
    else name in l.committed && hash in l.committed[name].hashes
  }

  predicate Full(d: Doc) { forall h | h in d.hashes :: h in d.has }

  /** The staged file can be promoted. */
  predicate Ready(l: Shelf, e: Epoch, name: Name, expected: Option<Vector>) {
    && (e, name) in l.staged && l.staged[(e, name)].version == expected
    && Full(if name in l.committed then Inheriting(l.staged[(e, name)], l.committed[name]) else l.staged[(e, name)])
  }

  datatype Event =
    | Stage(f: WireInfo)
    | Arrive(name: Name, hash: Hash, data: Option<Bytes>)
    | Promote(name: Name, expected: Option<Vector>)
    | Put(f: WireInfo)
    | Take(f: WireInfo, from: Name)       // note what a copy of another document would have
    | Copy(n: Note)                       // commit it
    | Hold(name: Name)                    // a document is about to be written anew, or replaced
    | Return(name: Name, doc: Doc)        // it is written anew, although it was forgotten
    | LatePromote(name: Name, expected: Option<Vector>, doc: Doc)  // it is replaced, although it was
    | Clear                               // staged files of older epochs go
    | Idle                                // a batch that readers do not notice
    | Flush
    | Forget(name: Name, where: set<nat>) // a deleted file is forgotten
    | Expire(epoch: Epoch, name: Name)    // a staged file of an older epoch is
    | Crash(k: nat, epoch: Epoch)

  predicate Enabled(l: Library, v: Event) {
    && Shaped(l)
    && match v
       case Arrive(name, hash, data) =>
         && CanArrive(Top(l), l.epoch, name, hash)
         && (data.Some? && hash in l.content ==> l.content[hash] == data.value) && (data.None? ==> hash in l.content)
       case Promote(name, expected) => Ready(Top(l), l.epoch, name, expected)
       case Copy(n) => n in l.notes
       case Hold(name) => name in Top(l).committed
       case Return(name, doc) => (name, doc) in l.held && name !in Top(l).committed
       case LatePromote(name, expected, doc) =>
         && (name, doc) in l.held && name !in Top(l).committed && (l.epoch, name) in Top(l).staged
         && Top(l).staged[(l.epoch, name)].version == expected
         && Full(Inheriting(Top(l).staged[(l.epoch, name)], doc))
       case Forget(name, gone) =>
         forall k | k in gone && k < |l.history| && name in l.history[k].committed ::
             l.history[k].committed[name].deleted
       case Expire(e, _) => e < l.epoch
       case Crash(k, _) => l.flushed <= k < |l.history|
       case _ => true
  }

  function Append(l: Library, top: Shelf): Library { l.(history := l.history + [top]) }

  function Next(l: Library, v: Event): Library
    requires Enabled(l, v)
  {
    var top := Top(l);
    match v
    case Stage(f) => Append(l, top.(staged := top.staged[(l.epoch, f.name) := Blank(f)]))
    case Arrive(name, hash, data) =>
      Append(l, Linked(top, l.epoch, name, hash))
        .(content := if data.Some? then l.content[hash := data.value] else l.content)
    case Promote(name, _) => Append(l, Promoted(top, l.epoch, name))
    case Put(f) => Append(l, Committed(top, f.name, Blank(f)))
    case Take(f, from) =>
      l.(notes := l.notes + {Note(f, if from in top.committed then Inheriting(Blank(f), top.committed[from])
                                     else Blank(f))})
    case Copy(n) => Append(l, Committed(top, n.f.name, n.doc))
    case Hold(name) => l.(held := l.held + {(name, top.committed[name])})
    case Return(name, doc) => Append(l, top.(committed := top.committed[name := doc]))
    case LatePromote(name, _, _) => Append(l, Promoted(top, l.epoch, name))
    case Clear => Append(l, top.(staged := map k | k in top.staged && k.0 >= l.epoch :: top.staged[k]))
    case Idle => Append(l, top)
    case Flush => l.(flushed := |l.history| - 1)
    case Forget(name, gone) =>
      l.(history := seq(|l.history|, k requires 0 <= k < |l.history| =>
           if k in gone then l.history[k].(committed := l.history[k].committed - {name}) else l.history[k]))
    case Expire(e, name) =>
      l.(history := seq(|l.history|,
                        k requires 0 <= k < |l.history| => l.history[k].(staged := l.history[k].staged - {(e, name)})))
    case Crash(k, e) => l.(history := l.history[..k + 1], flushed := k, epoch := e, notes := {}, held := {})
  }

  ghost predicate Runs(l: Library, events: seq<Event>, m: Library)
    decreases |events|
  {
    if events == [] then m == l else Enabled(l, events[0]) && Runs(Next(l, events[0]), events[1..], m)
  }

  function Initial(e: Epoch): Library { Library([Shelf(map[], map[])], 0, e, map[], {}, {}) }

  /** What a reader gets: the content of a hash that has arrived for the committed document. */
  function Read(l: Library, name: Name, hash: Hash): ReadResult
    requires Shaped(l)
  {
    if name in Top(l).committed && hash in Top(l).committed[name].has && hash in l.content
    then Data(l.content[hash])
    else NotFound
  }
}
