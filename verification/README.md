# Bepository, verified

A Dafny model of the stateful core of Bepository, a Syncthing-compatible peer that keeps folders in an
object store, and proofs of what that core promises: that the lock excludes, that no block number is
used twice, that reads return the right bytes, that garbage collection never takes a block that is in
use, that the store behaves as a library of documents and their content, that a delta index is
exact, that the request pipeline neither loses blocks nor stalls.

`dafny verify dfyconfig.toml` checks everything.

## How it is laid out

| file | part of the system |
|---|---|
| `EpochLock`, `RenewalWatchdog` | the distributed lock and the loop that keeps it |
| `GuardedLock` | what a user of a lock guard may rely on between renewals |
| `LoneAcquire` | what an acquire or a release comes to when nobody else takes a step meanwhile |
| `FolderModel` | one folder's database and the effect of each operation on it |
| `FolderStore` | the same operations as methods of an object that is changed in place, with the original's loops |
| `FolderRuns` | writers, compaction jobs, flushes and crashes, interleaved |
| `FolderContent`, `FolderGc`, `FolderIndex`, `FolderComplete` | what holds over all those runs |
| `FolderCollect`, `FolderRefs` | which rows a compaction job leaves, and that blocks in use stay findable |
| `FolderBytes` | that entries are what was sent and complete files read back as their bytes |
| `FolderLibrary`, `FolderRefinement` | a folder as its users see it, and that every run of the store is a run of that |
| `FolderBreaks` | a run for each premise of collection safety that fails without it, and how tight the premises are |
| `SeqAllocator` | block numbers with the lock, the refill and the commits step by step |
| `SortedRuns` | filtered compaction over a stack of sorted runs |
| `RequestWindow`, `RequestPipeline` | block requests in flight, and the two loops that share them |
| `ConnectionRegistry` | which connection a device has |
| `MetaFiles` | the meta file per epoch and the folder registry in it |
| `StoreKeys`, `Base32Epoch`, `DeviceId`, `VersionVectors`, `Files`, `SnapshotRead` | encodings, ordering, validation, range reads |
| `Numerals`, `Prelude` | positional numerals and small definitions |

State machines have the same shape everywhere: `Enabled` and `Next` give the steps, `Runs` a run, and
a premise that the code does not enforce is a field of `Premises` (or a flag) that `Enabled` reads.
Where a promise fails without a premise there is a run that shows it, and an `...Exactly` lemma states
that the promise holds in all runs if and only if the premise does.  The methods of `FolderStore.Store`
are proved against the functions of `FolderModel` that `FolderRuns.Next` is made of, so what is proved
of runs is proved of them.

## What the proofs say about the code

- *Lock.* Exclusion needs more than the code enforces (`ExclusionExactly`): a created epoch exceeds every
  epoch present at the put, and either a path that a holder goes back to still holds the file it left or
  read there, or a holder acts on its claim, and deletes in a release, only while that file's lease runs.
  A reused epoch name is what goes wrong otherwise: `release` reads a file and deletes a path, and in
  between the name can have become another owner's (`StalledReleaseBreaks`).
- *Lock guard.* A renewal deletes files before its user hears of anything: the owner's previous file before the
  new claim is verified, and the new claim when it has to yield.  A contender that meets the directory in
  between owns beside the first user (`RenewalGapBreaks`, `YieldGapBreaks`, `LateTellBreaks`).  Users are
  excluded from each other exactly if, besides the above, no renewal deletes a live file of its own while a
  rival has a live file below the new claim, and one of two things holds: none withdraws its claim while a rival
  has a live file above it and nobody creates a file between such a withdrawal and the moment the user is told,
  or nobody verifies a claim between those two (`GuardExactly`).
- *Priority.* A contender of higher priority is queued behind a running file and keeps its own; the owner's next
  undisturbed acquire then fails, and the contender's next one owns (`Preempts`).  It fails rather than yields: the
  renewal claims a new epoch above the queued file and deletes its old one, so the queued file is below it.  An
  acquire yields only to a file of higher priority that comes in above its claim (`YieldsIff`).
- *Lease.* A slow object store makes the watchdog report too late; `InTimeExactly` gives the bound on
  acquire calls, rounding to seconds and thirds included.
- *Collection.* It is safe exactly under eight premises (`SafetyExactly`).  When a job takes its snapshot, every
  number held by a committed file or by a staged file of the current epoch, of those whose rows were flushed
  before the job registered, is found by its scan, recorded with the job or about to be; so is every such number
  of a committed file in an earlier state that a crash can still fall back to.  The staged files that a new
  process finds in its epoch have their rows.  No filter judges a number dead whose write has yet to be recorded,
  and a number judged dead is not linked again before its row is gone.  The row that a lookup has found is still
  there when the block is linked, and so are the rows that a conflict copy takes over when the copy is committed.
  The numbers of an entry that was pruned while a call was about to write it anew have their rows, are not judged
  dead, and are known to the jobs that are past their snapshot and go through them.
  The comment on `put_file_with_carry` calls the window of the conflict copy safe because the blocks are
  recorded; they are recorded too late (`StaleCopyBreaks`).  Three premises are tight state by state, with all
  others kept: a number that a job will not know when it takes its snapshot can be lost in whatever state it
  does (`MissedIsLost`, `UndoneIsLost`), and a staged file that a new process finds without its row is promoted
  without it (`ReturnedIsLost`).  The ordinary restarts meet the premise: after a release the next process has the
  same epoch again and finds all staged files intact if the batches were flushed, and an epoch that has no staged
  files is safe after any crash (`RestartAllowed`).  The scan prefix finds only names without a directory
  (`StoreKeys.InboxScan`), so a staged file in a directory is seen only through what is recorded after the job
  registers.
- *Promotion.* `complete_file` reads the committed entry twice, to check and to carry.  If the collector prunes a
  deleted entry in between, a file is promoted that waits for blocks, with all premises kept
  (`LatePromoteBreaks`); what is promoted is complete exactly if the entry was not pruned in between, or the staged
  file needed nothing from it (`PromotedWholeIff`).
- *Reading back.* What is stored is what was sent (`StoredAsSent`), and a complete file whose entry passed validation
  reads back as exactly its bytes if and only if every content received is at least as long as its block declares
  (`ReadsBack`); the length of a received block is not compared with the declared one.
- *Metadata updates.* An update is compared with the committed entry before its name is locked.  If another
  version is promoted in between, the late commit brings the older version back, without its blocks
  (`LateMetadataBreaks`); `StepWhole` says exactly which steps can do that to an entry.
- *Allocator.* The source's comment bounds crash waste by 255 numbers; a crash between the flush of a
  reservation and its first hand-out wastes all 256, and every failed flush before it another 256 (`CrashWaste`).
- *Delta index.* Pruning changes a delta exactly when it removes a row that the delta reads
  (`PruneDelta`); deltas from the peer floor on never notice.  Read beside writers, a delta misses nothing and
  repeats nothing (`DeltaBeside`), but a file committed again meanwhile comes out of order (`DeltaOutOfOrder`);
  the order is kept exactly if no such file is followed by one that was not committed again, or was before it
  (`DeltaInOrderIff`).
- *Peer floor.* The comment says that no floor exists while all peers are at 0; in the code one peer at
  0 is enough.  The model follows the code.
- *Conflicts.* Counters are added up as 64-bit numbers.  In a release build the sum wraps, and then a strictly
  newer version can lose (`WrappedLoses`); it wins whatever else differs exactly if its wrapped total is the
  larger (`NewerWinsExactly`), which holds whenever its counters add up to less than 2^64 (`GreaterWrapped`).
- *Meta file.* A change before cleaning has finished would be lost behind a file of a later epoch
  (`CommittedExactly`); the callers never make one.  The comment in `modify_meta` calls the cached copy identical
  to the file.  It is not after a put that took effect and was reported as failed, and then the next folder is
  registered under the key of the one before (`StaleChangeReuses`).  Keys are never reused exactly if, besides,
  every change starts from what the file holds (`KeysExactly`), which a restart or a second read provides.

## Model

| member | source | states |
|---|---|---|
| EpochLock.PartitionAround | bepository-lock/src/lib.rs:64-84 | a sorted listing is split into what is below, at and above an epoch, nothing lost |
| EpochLock.MutualExclusion | bepository-lock/src/lib.rs:180-404 | in every interleaving of claims, scavenging, verification, renewal, release and failures, each request to the store a step of its own, under the premises at most one holder owns an unexpired lease; its file is present and the lowest |
| EpochLock.ClockNeverBackward | bepository-lock/src/lib.rs:294-297 | while holders act within the lease of their claims, no acquire finds a lower file newer than its own claim, so none reports a backward clock |
| EpochLock.UndisturbedClaimOwns | bepository-lock/src/lib.rs:220-239 | an undisturbed claim with nothing below it and nobody of higher priority present does end as owner |
| EpochLock.StalePutBreaks | bepository-lock/src/lib.rs:180-214 | a put below a present epoch, after the highest file vanished between list and put, gives two owners |
| EpochLock.FrozenHolderBreaks | bepository-lock/src/lib.rs:267-300 | a holder that wakes after its claim expired can delete a live owner's file under a reused name and give two owners |
| EpochLock.StalledReleaseBreaks | bepository-lock/src/lib.rs:389-404 | a release that has read its expired file and stalls can delete a live owner's file of the same name later and give two owners |
| EpochLock.ExclusionExactly | bepository-lock/src/lib.rs:180-404 | exclusion holds in all runs if and only if puts are fresh and holders either find their own file where they left or read it, or act on claims and releases within the lease |
| GuardedLock.GuardExclusion | bepository-lock/src/guard.rs:135-306 | at most one user goes on in the belief of having the lock: granted, not told of a loss, lease still running; under the premises on holders, on what renewals delete in sight of rivals, and on nobody coming in, or nobody verifying a claim, before a withdrawn user is told |
| GuardedLock.RenewalGapBreaks | bepository-lock/src/lib.rs:284-293 | a renewal that deletes its own live file lets a contender in the middle of its check own beside the renewing user |
| GuardedLock.YieldGapBreaks | bepository-lock/src/lib.rs:380-384 | a renewal that yields deletes its claim before its user is told, and the rival it yields to owns beside that user |
| GuardedLock.LateTellBreaks | bepository-lock/src/lib.rs:380-384 | even if nobody is there when the claim is deleted, a rival that comes back before the user is told owns beside that user |
| GuardedLock.GuardExactly | bepository-lock/src/guard.rs:135-306 | users are excluded from each other in all runs if and only if holders are, renewals delete their previous file out of sight of rivals, and either they also withdraw so and nobody creates a file before the withdrawn user is told, or nobody verifies a claim before that |
| LoneAcquire.AcquireEnds | bepository-lock/src/lib.rs:220-384 | an acquire past its fast path that nobody disturbs can end, and every way it ends, whatever the directory holds and however long it takes, gives the status and the files of the rules: owner, queued, queued for a backward clock or failed, by the running files of others at the time of its claim |
| LoneAcquire.QueuedOrFailed | bepository-lock/src/lib.rs:318-333 | behind a running file of lower priority it is queued and its file stays; behind one of equal or higher priority it fails and no file of its own is left |
| LoneAcquire.OwnsAlone | bepository-lock/src/lib.rs:241-300 | without a running file of others it owns, and its file is the only one left |
| LoneAcquire.Preempts | bepository-lock/tests/lock_tests.rs:43-69 | a contender of higher priority is queued, the owner's next acquire fails and its user is told, and the contender's next acquire owns, if the queued file still runs when the owner has tried |
| LoneAcquire.YieldsIff | bepository-lock/src/lib.rs:335-353 | an acquire whose claim is the lowest yields, and deletes its claim, if and only if a listed file above it has a higher priority and ran when the claim was made; otherwise it owns |
| LoneAcquire.RejectedIff | bepository-lock/src/lib.rs:220-232 | the fast path is open exactly behind the lowest file being another's and of no lower priority; it returns not-owner and changes nothing |
| LoneAcquire.ReleaseDeletesOwn | bepository-lock/src/lib.rs:389-404 | a release that nobody disturbs deletes exactly the holder's files |
| RenewalWatchdog.LossExactly | bepository-lock/src/guard.rs:269-305 | a loss other than expiry is reported if and only if the loop gets to an attempt that brings it: yielded or another status preempts, a backward clock is a regression, a cut pause a cancellation |
| RenewalWatchdog.AttemptReports | bepository-lock/src/guard.rs:269-305 | the report comes at the end of that attempt, with the last successful claim |
| RenewalWatchdog.ExpiryTells | bepository-lock/src/guard.rs:258-285 | an expiry names two thirds of the lease as its threshold and at least as many seconds as elapsed |
| RenewalWatchdog.RenewalLoop | bepository-lock/src/guard.rs:249-306 | the loop computes the report that the recursive reading of its rules gives: renewed, preempted, clock regression, expired, cancelled in any of its pauses |
| RenewalWatchdog.LossBeforeLeaseEnds | bepository-lock/src/guard.rs:249-306 | with every acquire bounded by A and 2A + 15 s within a third of the lease, the loop stops before the lease of the last successful claim ends, whatever the attempts return |
| RenewalWatchdog.FailuresEndInLoss | bepository-lock/src/guard.rs:269-305 | enough failed renewals always end in a reported loss |
| RenewalWatchdog.InTimeExactly | bepository-lock/src/guard.rs:249-306 | a loss is reported before the lease ends, in all runs with acquires of at most A, if and only if the latest start of a renewal, twice A and the 15 s pause fit into the lease |
| FolderStore.CarryBlockPointers | bepository-storage/src/store.rs:982-1001 | blocks without a pointer get that of the first pointed block with their hash, all others stay |
| FolderStore.Store.CommitWithNewSeq | bepository-storage/src/store.rs:294-331 | one batch: pointers carried, old sequence row removed, entry and new sequence row written, counter raised |
| FolderStore.Store.PutFile | bepository-storage/src/store.rs:338-344 | the whole new state: the peer's entry under the next sequence, with the pointers it can carry; what of the entry is kept is stated by `Files.WireRoundTrip` |
| FolderStore.Store.PutFileWithCarry | bepository-storage/src/store.rs:358-385 | the new state after a conflict copy, reverse references and records with every job included |
| FolderStore.Store.StageFile | bepository-storage/src/store.rs:439-448 | the whole new state: the entry of that epoch and name replaced, without pointers; what of it is kept is stated by `Files.WireRoundTrip` |
| FolderStore.Store.CompleteFile | bepository-storage/src/store.rs:465-523 | promotion, or nothing when unstaged or another version, or an error when blocks are missing |
| FolderStore.Store.GcInbox | bepository-storage/src/store.rs:526-552 | staged files of older epochs go and are counted |
| FolderModel.PeerFloor | bepository-storage/src/store.rs:584-601 | a floor is at most every peer's sequence and one peer's own; there is none exactly without peers or when the least is 0 |
| FolderStore.Store.ComputePeerFloor | bepository-storage/src/store.rs:584-601 | the least sequence of any peer, none without peers or when it is 0 |
| FolderStore.Store.StoreBlock | bepository-storage/src/store.rs:658-773 | all outcomes: malformed hash, inline, shared with the directory that holds it, newly numbered, no such block (the number is spent), corrupt pointer |
| FolderStore.Store.ReuseBlock | bepository-storage/src/store.rs:780-847 | shares a held and safe block, or says why not |
| FolderStore.Store.ReadBlock | bepository-storage/src/store.rs:850-880 | reads as the first block of the hash that resolves |
| FolderStore.Store.FindBlockDir | bepository-storage/src/store.rs:924-954 | a directory is returned only if it holds the data and no job objects; none is returned only if none holds it or a job objects |
| FolderStore.Store.FilesSince | bepository-storage/src/store.rs:410-426 | with no writer beside it, the files behind the sequence rows above the given one, in order; an error below -1 and at the largest 64-bit sequence |
| FolderStore.Store.Allocate | bepository-storage/src/store.rs:1045-1109 | the next reserved number, or a refill that raises the durable counter first |
| FolderStore.Store.IsBlockSafe | bepository-storage/src/store.rs:104-111 | true exactly if every active job takes the hash for live |
| FolderStore.Store.RecordBlockWrite | bepository-storage/src/store.rs:90-98 | every active job learns the hash and the number, nothing else changes |
| FolderStore.Store.BuildFilters | bepository-storage/src/compaction.rs:51-217 | a job's filters gain exactly what the snapshot's committed and covered staged files refer to; a malformed pointer ends the job |
| FolderStore.Store.Judge | bepository-storage/src/compaction.rs:455-557 | prunes a row exactly by the rule of its class; what the rules come to over runs is stated by `FolderCollect.CollectedExactly` |
| FolderCollect.JobKnows | bepository-storage/src/compaction.rs:172-234 | in every run, when a job judges it knows exactly what its scan of the snapshot found, what was recorded since it registered, and noise |
| FolderCollect.CollectedExactly | bepository-storage/src/compaction.rs:455-557 | of the rows it judges a job leaves exactly: data whose number and pointers and references whose hash are among that, staged files of its epoch and later, sequence rows from the peer floor on, and files not deleted or from the floor on |
| FolderCollect.ScannedIff | bepository-storage/src/compaction.rs:197-234 | a scan finds a hash if and only if a committed file, or a staged one that its prefix covers, has a separated block of it, and likewise a number |
| FolderCollect.ClearedIsKept | bepository-storage/src/store.rs:924-960 | no job that is active when a lookup passes the check of jobs will ever prune a pointer or a reference of that hash |
| FolderCollect.DropOne | bepository-storage/src/compaction.rs:455-557 | judging a row changes no other row in any state a crash could leave |
| FolderCollect.CollectionKeepsFound | bepository-storage/src/compaction.rs:479-501 | a block in use by a file that the scan reads and findable in a directory when a job takes its snapshot is findable there ever after, whatever the job judges and writers do, until a crash or another job's judgement of its rows |
| FolderRefs.ReferencesComplete | bepository-storage/src/store.rs:358-385 | in every run without a pruned reference, each separated block of a committed or staged file, stored, shared, carried or copied, has its reference under the file's name |
| FolderBytes.StoredAsSent | bepository-storage/src/proto.rs:49-78 | after every run each entry, committed or staged, has the version, deletion flag, size and, block by block, the offset, size and hash of something sent under its name |
| FolderBytes.ReadsBack | bepository-storage/src/block_read.rs:40-56 | after every run under the collection premises in which what is taken in has passed validation, a complete file is validly laid out, its blocks resolve to what was supplied, and the whole is served if and only if no content is shorter than declared; then it is `size` bytes, content after content |
| FolderBytes.MetadataKeepsReading | bepository-bep/src/storage.rs:29-35 | an update that counts as one of metadata only asks no more and no less of the contents than the entry before it |
| FolderBytes.ReadFile | bepository-storage/src/snapshot_fs.rs:150-240 | the range read of such a file from 0 returns exactly that content, or an error if some content is too short |
| FolderStore.Store.ApplyUpdate | bepository-storage/src/api.rs:1564-1600 | rejects, ignores, stages, commits or reports a conflict exactly by version order and equality of blocks |
| FolderStore.Store.ResolveConflict | bepository-storage/src/api.rs:1613-1631 | the loser's copy takes its pointers before the winner overwrites them |
| FolderContent.ReadsAgree | bepository-storage/src/store.rs:850-880 | after any run, with crashes and collection anywhere, a read returns the data supplied with the hash if the entry has it and nothing else ever |
| FolderContent.ReadsAcross | bepository-storage/src/store.rs:850-880 | a read whose entry is read at one moment and whose data rows are read later gets, for each block, the data of its hash or nothing, whatever happens in between |
| FolderContent.NumberIsNew | bepository-storage/src/store.rs:1045-1109 | a number handed out was never used, is at least 1024 and lies below the counter of every state a crash can leave |
| FolderContent.NumbersDistinct | bepository-storage/src/store.rs:1022-1109 | over a whole run with crashes no block number is handed out twice, used or not |
| FolderContent.NothingMalformed | bepository-storage/src/compaction.rs:74-97 | no run stores a pointer on which a collector's scan or a lookup would give up |
| FolderContent.LinkedEverywhere | bepository-storage/src/store.rs:739-773 | every block of the entry with the hash takes the pointer and no other block changes |
| FolderContent.FirstPointedIs | bepository-storage/src/store.rs:982-1001 | a carried pointer is that of the first block of its hash that has one |
| FolderContent.LinkedIsFound | bepository-storage/src/store.rs:710-737 | a stored or shared block is found again in its file's directory, so its hash is not stored twice |
| FolderGc.CollectionIsSafe | bepository-storage/src/compaction.rs:172-234 | under the premises no data row referred to by a committed entry or by a staged entry of the current epoch is ever dropped, for any number of jobs, any names, any unflushed batches, restarts in the same epoch or another, and rows that vanish after their job has ended |
| FolderGc.RestartAllowed | bepository-cli/src/main.rs:846-867 | after any run under the premises, a process may start in the epoch of the one before if nothing was lost, and in an epoch without staged files whatever was lost: the premise on restarts holds there |
| FolderGc.StoreRefinesContent | bepository-storage/src/store.rs:850-880 | under the premises the store is a map from name and hash to content: a hash reads as its data exactly if the committed entry has a pointer for it |
| FolderGc.CompleteFilesRead | bepository-storage/src/store.rs:496-511 | every block of a complete committed file reads as its data |
| FolderBreaks.NestedNameBreaks | bepository-storage/src/compaction.rs:202-210 | a block of a staged file in a directory, stored before the job began, can be dropped and the file promoted without it |
| FolderBreaks.UnflushedScanBreaks | bepository-storage/src/compaction.rs:197-200 | a snapshot that no longer sees a reference held by an unflushed state lets a crash bring that reference back to a dropped row |
| FolderBreaks.OldEpochBreaks | bepository-storage/src/compaction.rs:503-513 | staged files of an epoch that comes back are not protected while another epoch runs |
| FolderBreaks.LateDropBreaks | bepository-storage/src/compaction.rs:462-477 | a row judged before it is linked again still vanishes later, although the link is recorded |
| FolderBreaks.LateRecordBreaks | bepository-storage/src/store.rs:770-773 | a link not yet recorded with the jobs does not protect its row |
| FolderBreaks.StaleLookupBreaks | bepository-storage/src/store.rs:711-770 | a block that was found, dropped and only then linked leaves an entry without data |
| FolderBreaks.StaleCopyBreaks | bepository-storage/src/store.rs:345-385 | a conflict copy that read its blocks before the winner was committed and the collector ran is committed without their data |
| FolderBreaks.TombstoneBreaks | bepository-storage/src/store.rs:275-331 | a deleted entry that lists blocks is pruned and its rows collected after a call has read it and before the call writes it anew, with the pointers it had |
| FolderBreaks.LatePromoteBreaks | bepository-storage/src/store.rs:496-518 | a staged file that takes a block from a deleted entry at the check is promoted without it when the entry is pruned before the commit, all premises kept |
| FolderBreaks.SafetyExactly | bepository-storage/src/compaction.rs:172-557 | collection is safe in all runs if and only if all eight premises hold |
| FolderBreaks.MissedIsLost | bepository-storage/src/compaction.rs:197-234 | in every state in which a job takes its snapshot, a staged file's number whose row the job goes through and which it will not know can be dropped at once with all other premises kept, and a promotion then dangles |
| FolderBreaks.ReturnedIsLost | bepository-storage/src/compaction.rs:503-513 | in every state in which a process starts, a number of a staged file of its epoch whose row is gone is promoted with the file, all other premises kept |
| FolderBreaks.UndoneIsLost | bepository-storage/src/compaction.rs:197-234 | likewise a committed file's number in any state that a crash can still fall back to: it can be dropped, and the crash then leaves the file without it |
| FolderBreaks.CopyKeptIff | bepository-storage/src/store.rs:358-385 | the commit of a conflict copy leaves all files with their data if and only if the rows it takes over are there |
| FolderBreaks.LateMetadataBreaks | bepository-storage/src/api.rs:1573-1597 | a metadata update compared with a complete entry and committed after another promotion leaves the entry incomplete and at the older version, with all premises kept |
| FolderRefinement.Simulates | bepository-storage/src/store.rs:294-847 | every step of the folder, with its pointers, numbers, references and jobs, is at most two events of a library that knows documents, arrived hashes and content only |
| FolderRefinement.FolderRefinesLibrary | bepository-storage/src/store.rs:294-880 | every run of the folder, crashes and late copies included and without any premise, maps to a run of the library |
| FolderRefinement.ReadsRefine | bepository-storage/src/store.rs:850-880 | under the collection premises reading a block from the folder is reading it from the library |
| FolderIndex.Bijection | bepository-storage/src/store.rs:294-331 | without pruning, sequence rows and entries' sequences are mutual inverses bounded by the counter, in every state a crash could leave |
| FolderIndex.DeltaExact | bepository-storage/src/store.rs:410-426 | after any run a delta read at once lists exactly the files above the given sequence, each once, in increasing order, from the highest floor pruned with on |
| FolderIndex.DeltaBeside | bepository-storage/src/store.rs:410-426 | a delta whose rows are scanned at one moment and whose files are read one by one later: each file above the given sequence comes at most once and, unless pruned, at least once, in the order of the scan, no older than when it was scanned unless it was pruned and written back |
| FolderIndex.DeltaOutOfOrder | bepository-storage/src/store.rs:417-423 | such a delta can come with decreasing sequences |
| FolderIndex.DeltaInOrderIff | bepository-storage/src/store.rs:410-426 | it comes in increasing order if and only if every two files still there are read with increasing sequences; of two that were not pruned and written back, the pair is out of order exactly if the first was committed again since the scan and the second was not, or was before it |
| FolderIndex.PruneDelta | bepository-storage/src/compaction.rs:515-551 | pruning a row changes a delta if and only if the filter prunes it and the delta reads it |
| FolderIndex.FloorKeepsDelta | bepository-storage/src/compaction.rs:515-551 | deltas from the peer floor on are unchanged by pruning |
| FolderComplete.PromotedWhole | bepository-storage/src/store.rs:465-523 | where the entry does not change between check and commit, promotion happens if and only if the version matches and no block lacks a pointer after carrying; the result is complete and other files are untouched |
| FolderComplete.PromotedWholeIff | bepository-storage/src/store.rs:496-518 | with the entry read once for the check and once for the commit, what is promoted is complete if and only if the entry was not pruned in between or the staged file has all pointers itself |
| FolderComplete.PutWholeIff | bepository-storage/src/store.rs:294-344 | a put leaves a complete entry if and only if the entry before has a pointer for every hash it brings |
| FolderComplete.MetadataWhole | bepository-storage/src/api.rs:1591-1597 | a metadata update whose blocks are still those of the entry when it is committed keeps it complete |
| FolderComplete.StepWhole | bepository-storage/src/store.rs:294-847 | a step of any kind leaves a complete entry complete if and only if it is not a put whose hashes the entry does not cover, a copy that lacks blocks, a pruning of its row, or a crash to a state in which it was not complete |
| FolderComplete.StaysWhole | bepository-storage/src/store.rs:465-847 | once complete, an entry stays complete over any run without such a step |
| FolderComplete.StepDurable | bepository-storage/src/store.rs:294-847 | a step leaves an entry complete in all states a crash can lead to if and only if it is not such a put or copy and does not prune its row in one of them; crashes do no harm |
| FolderComplete.StaysDurable | bepository-storage/src/store.rs:465-847 | an entry that is complete in every state a crash can leave stays so over any run without such a step, whatever crashes happen |
| FolderComplete.FlushedSurvives | bepository-storage/src/store.rs:465-847 | once an entry is complete and flushed, it is complete after any such run |
| SeqAllocator.AllocatesOnce | bepository-storage/src/store.rs:1045-1109 | in every interleaving of allocators, refills, commits of the same row, failed and abandoned requests, background flushes and crashes, numbers are unique, at least 1024 and below every counter a crash can leave |
| SeqAllocator.CrashWaste | bepository-storage/src/store.rs:1018-1043 | a crash skips fewer than 256 numbers unless a written reservation that was never put to use survives; then it skips 256 for each such, of which there are at most one plus the number of failures |
| SeqAllocator.UnlockedCommitBreaks | bepository-storage/src/store.rs:312-328 | a commit that did not take the allocator's lock would bring numbers back |
| SeqAllocator.UniqueExactly | bepository-storage/src/store.rs:312-328 | numbers are unique in all runs if and only if commits take the lock |
| SortedRuns.MergeKeeps | bepository-storage/src/compaction.rs:441-451 | after a filtered merge of a contiguous group every row reads as before, except exactly the pruned ones, which are gone |
| SortedRuns.DropExactly | bepository-storage/src/compaction.rs:441-451 | a merge may drop without tombstones, for all stacks, if and only if it reaches the last run |
| SortedRuns.NeverResurrects | bepository-storage/src/compaction.rs:441-557 | over any run of writes and compactions a row reads as its last write or not at all, and as its last write unless a filter pruned that write since |
| RequestWindow.Window.NextRequestId | bepository-bep/src/connection.rs:122-130 | the first 32-bit id from the counter on that is not in flight, wrapping; the search ends |
| RequestWindow.FreeExactly | bepository-bep/src/connection.rs:122-130 | the search for an id ends if and only if not all 2^32 are in flight |
| RequestWindow.Window.SubmitOrDefer | bepository-bep/src/connection.rs:1368-1413 | a request under an unused id, or a deferred block exactly when the window is full |
| RequestWindow.Window.TakeResponse | bepository-bep/src/connection.rs:1217-1220 | the answered request leaves the window and no other does |
| RequestWindow.Window.DrainDeferred | bepository-bep/src/connection.rs:1415-1479 | deferred blocks move until the window is full or the queue empty; blocks are conserved, requests in flight untouched, and the loop ends |
| RequestPipeline.WindowHolds | bepository-bep/src/connection.rs:1211-1523 | in every interleaving of the two loops the window is never overfull, blocks are conserved, and a resting message loop with deferred blocks implies a full window |
| RequestPipeline.AsMultisets | bepository-bep/src/connection.rs:1211-1523 | submitted blocks are exactly those stored, in flight, deferred, still to come and in hand, with multiplicity |
| RequestPipeline.NoneOverwritten | bepository-bep/src/connection.rs:1397-1410 | no step but its own response removes or replaces a request in flight |
| RequestPipeline.ProgressEnds | bepository-bep/src/connection.rs:1415-1523 | both loops come to rest: progress is bounded by a potential, also when drained blocks are deferred again |
| RequestPipeline.NeverStuck | bepository-bep/src/connection.rs:1211-1523 | until everything is answered a step of progress is possible |
| RequestPipeline.AllStored | bepository-bep/src/connection.rs:1211-1523 | once every request is answered nothing is deferred and everything submitted is stored |
| ConnectionRegistry.OneConnection | bepository-bep/src/engine.rs:74-121 | in every run a connection that has not ended is the tracked one of its device or cancelled, so a device has at most one uncancelled; nothing tracked has ended |
| ConnectionRegistry.StaysTracked | bepository-bep/src/engine.rs:112-117 | over any run a tracked connection that has not ended stays tracked until a newer one of its device is, whatever others are reaped or rejected |
| ConnectionRegistry.AccountedExactly | bepository-bep/src/engine.rs:112-117 | connections stay accounted for in all runs if and only if entries are compared before untracking |
| ConnectionRegistry.Registry.Register | bepository-bep/src/engine.rs:263-274 | the new entry is tracked, an older one of the device cancelled |
| ConnectionRegistry.Registry.HandOver | bepository-bep/src/engine.rs:297-313 | handed to the supervisor, or refused and untracked |
| ConnectionRegistry.Registry.ReapTask | bepository-bep/src/engine.rs:99-118 | an ended task leaves the table and untracks only itself |
| MetaFiles.LatestName | bepository-storage/src/api.rs:370-392 | of a listing, the meta file with the lexicographically last name |
| MetaFiles.LatestIsGreatest | bepository-storage/src/api.rs:370-392 | among epochs' files that is the one of the greatest epoch |
| MetaFiles.LatestIsCommitted | bepository-storage/src/api.rs:233-270 | at every crash point of activation, cleaning and change, for any order of epochs, the latest file holds the last committed content |
| MetaFiles.CommittedExactly | bepository-storage/src/api.rs:938-976 | that holds in all runs if and only if nothing is changed before cleaning has finished |
| MetaFiles.KeysNeverReused | bepository-storage/src/api.rs:1109-1137 | between any three points of a run in which every change starts from what the file holds, puts reported as failed included: a storage key once in the registry names the same folder wherever it is there later, and once removed it is never there again |
| MetaFiles.StaleChangeReuses | bepository-storage/src/api.rs:938-952 | a registration whose put takes effect but is reported as failed leaves the cache behind, and the next one takes the same key for another folder |
| MetaFiles.KeysExactly | bepository-storage/src/api.rs:938-952 | keys are never reused in all runs if and only if nothing is changed before cleaning has finished and every change starts from what the file holds |
| MetaFiles.HeardIsSynced | bepository-storage/src/api.rs:938-952 | in a run without such puts every change does start from what the file holds |
| MetaFiles.FoldersUnique | bepository-storage/src/api.rs:1109-1137 | in every run, puts reported as failed included, no two keys of the registry name the same folder |
| MetaFiles.FenceHolds | bepository-storage/src/api.rs:238-250 | no process older than the last finished activation gets past the version fence |
| MetaFiles.Storage.Activate | bepository-storage/src/api.rs:233-270 | refused without a trace by a newer format, otherwise exactly one file is left, with the latest content under the new epoch |
| MetaFiles.Storage.RegisterFolder | bepository-storage/src/api.rs:1109-1137 | a new key exactly if the folder is not registered and the key fits in 40 bits; otherwise nothing changes |
| MetaFiles.EnsuredTitles | bepository-storage/src/api.rs:1328-1348 | afterwards each wanted folder has the last title wanted for it, every other folder is as it was, and no key changes its folder |
| MetaFiles.Storage.EnsureFolders | bepository-storage/src/api.rs:1316-1359 | afterwards all wanted folders exist; created exactly those that were missing, each once; nothing changes where a key would not fit |
| MetaFiles.Storage.RemoveFolder | bepository-storage/src/api.rs:648-687 | exactly the objects under the folder's key are deleted and the folder leaves the registry; its key is not free again |
| DeviceId.Display | bepository-bep/src/device_id.rs:116-154 | the 64-bit accumulator and the groups with check characters give the displayed form |
| DeviceId.FromStr | bepository-bep/src/device_id.rs:64-112 | the parser's loops compute the parse of the cleaned text, errors included |
| DeviceId.ParsesIff | bepository-bep/src/device_id.rs:64-183 | a text parses if and only if, hyphens and case aside, it is four groups of 14 characters of the alphabet in each of which the 13 digits, weighed 1 and 2 in turn with each product counted by its two base-32 digits, and the check character add up to a multiple of 32 |
| DeviceId.ParsedIs | bepository-bep/src/device_id.rs:64-112 | what parses stands for the first 256 of the 260 bits that its characters, check characters aside, spell |
| DeviceId.ShownBalanced | bepository-bep/src/device_id.rs:116-183 | so does every displayed ID |
| DeviceId.ShownSpells | bepository-bep/src/device_id.rs:116-154 | the other 52 characters of a displayed ID spell its 256 bits and four zero bits |
| DeviceId.ChunkedShape | bepository-bep/src/device_id.rs:141-154 | the displayed form is the characters in chunks of seven with a hyphen between two |
| DeviceId.RoundTrip | bepository-bep/src/device_id.rs:64-154 | parsing the displayed form returns the ID, for every ID |
| DeviceId.SubstitutionDetected | bepository-bep/src/device_id.rs:64-183 | replacing any single character by a different one, case aside, makes parsing fail |
| DeviceId.TranspositionDetected | bepository-bep/src/device_id.rs:88-183 | exchanging two neighbouring data characters of a group makes parsing fail if and only if they differ and are not A and 7 |
| VersionVectors.Compare | bepository-bep/src/conflict.rs:102-155 | the two-cursor merge of unsorted vectors computes the specified order, or reports duplicate ids |
| VersionVectors.ExceedsPointwise | bepository-bep/src/conflict.rs:102-155 | that order is pointwise comparison with missing counters as zero |
| VersionVectors.CompareMirrored | bepository-bep/src/conflict.rs:102-155 | swapping the arguments mirrors the outcome |
| VersionVectors.ComparePreorder | bepository-bep/src/conflict.rs:102-155 | being at least as new is reflexive and transitive, strictness propagates |
| VersionVectors.GreaterTotal | bepository-bep/src/conflict.rs:160-163 | a strictly newer vector has a strictly larger total, before wrapping |
| VersionVectors.GreaterWrapped | bepository-bep/src/conflict.rs:160-163 | and a strictly larger 64-bit total if its counters add up to less than 2^64 |
| VersionVectors.WinnerIs | bepository-bep/src/conflict.rs:59-80 | the winner, on whichever side: the larger 64-bit total, a missing version counting 0; on equal totals the side that is not deleted; with equal flags, too, the lexicographically greater device id |
| VersionVectors.PeersAgree | bepository-bep/src/conflict.rs:59-80 | both peers pick the same winner if and only if 64-bit totals, deletion or device ids differ |
| VersionVectors.NewerWins | bepository-bep/src/conflict.rs:59-80 | a strictly newer version whose counters add up to less than 2^64 never loses |
| VersionVectors.NewerWinsExactly | bepository-bep/src/conflict.rs:59-80 | a strictly newer version wins whatever the deletion flags and devices if and only if its 64-bit total is the larger |
| VersionVectors.WrappedLoses | bepository-bep/src/conflict.rs:160-163 | a strictly newer version whose total wraps to 0 always loses |
| Files.ValidateFileInfo | bepository-bep/src/validate.rs:21-71 | accepts exactly contiguous blocks of legal size with full hashes that add up to the size |
| Files.ValidInfoIff | bepository-bep/src/validate.rs:21-70 | accepted are blocks end to end from 0, each of 1 byte to 16 MiB with a 32-byte hash, ending at the file's size below 2^63; or no blocks and any size |
| Files.WireRoundTrip | bepository-storage/src/proto.rs:49-109 | an entry stored and sent again is the entry that came |
| Files.ValidJoined | bepository-storage/src/api.rs:1811-1838 | of names made of parts between slashes, accepted are those without an empty part, a parent-directory part or a NUL |
| Files.ValidateFileName | bepository-storage/src/api.rs:1811-1834 | accepts exactly non-empty names without NUL whose parts are neither empty nor `..` |
| SnapshotRead.CopyRange | bepository-storage/src/snapshot_fs.rs:211-258 | a range of the concatenated blocks, failing exactly when a needed block is missing or short |
| SnapshotRead.ReadBytes | bepository-storage/src/snapshot_fs.rs:150-180 | for every offset and length exactly the bytes of the file in the range, cut at its size |
| StoreKeys.ClassesDisjoint | bepository-storage/src/store_keys.rs:100-205 | no key belongs to two classes |
| StoreKeys.FileKeyRoundTrip | bepository-storage/src/store_keys.rs:73-119 | a valid name survives its key |
| StoreKeys.SeqKeyRoundTrip | bepository-storage/src/store_keys.rs:123-146 | a 64-bit sequence survives its key |
| StoreKeys.BlockDataKeyRoundTrip | bepository-storage/src/store_keys.rs:172-205 | a block number survives its key exactly if it is at least 1024 |
| StoreKeys.PointerKeyRoundTrip | bepository-storage/src/store_keys.rs:158-170 | the hash survives a pointer key |
| StoreKeys.ReverseKeyRoundTrip | bepository-storage/src/store_keys.rs:282-326 | hash and name survive a reverse reference |
| StoreKeys.InboxKeyRoundTrip | bepository-storage/src/store_keys.rs:328-354 | epoch and name survive an inbox key |
| StoreKeys.SeqScan | bepository-storage/src/store_keys.rs:123-153 | a scan after a sequence meets exactly the later ones, in numeric order |
| StoreKeys.ReverseScan | bepository-storage/src/store_keys.rs:282-304 | the prefix of a hash matches exactly that hash's references |
| StoreKeys.InboxEpochs | bepository-storage/src/store_keys.rs:328-354 | the inbox scan of one epoch never meets another's files |
| StoreKeys.InboxScan | bepository-storage/src/compaction.rs:202-202 | the collector's inbox prefix covers a name if and only if it has no directory |
| Base32Epoch.ToBase32 | bepository-lock/src/base32.rs:15-25 | eight characters, or none above 40 bits |
| Base32Epoch.FromBase32 | bepository-lock/src/base32.rs:28-39 | the digit loop computes the decoding, errors included |
| Base32Epoch.RoundTrip | bepository-lock/src/base32.rs:15-39 | decoding undoes encoding, with and without suffix |
| Base32Epoch.ParsedIsEncoded | bepository-lock/src/base32.rs:28-39 | whatever parses is the encoding of its value, so no two names of equal suffix stand for one epoch |
| Base32Epoch.FilenameOrder | bepository-lock/src/lib.rs:141-153 | sorting epoch filenames sorts the epochs |

## Left out

- SlateDB, the object store, protobuf, TOML and SHA-256 themselves: batches are atomic, a crash keeps a prefix of the batches that includes everything flushed, and that a hash always comes with the same data is a premise of `Enabled`.
- Reads and writes of a call that holds a name's lock are one step in `FolderRuns`, except that the collector may prune the committed entry in between: before a block is linked in it (`Peek`, `Restore`), between the check and the commit of a promotion (`Peek`, `LateComplete`), and after a commit has read it to carry its pointers, which is `Restore` followed by the commit, with a batch more that a crash can fall back to.
- A refill of block numbers is one step in `FolderRuns`; its steps and failures are in `SeqAllocator`.
- Deferred removal is modelled for data rows only; pointer, reference, inbox and index rows vanish when judged.
- RequestWindow.Window.constructor: assumes a configured maximum of at most 2^32; above it the id search may not end, as `FreeExactly` states.
- MetaFiles.Storage.Activate: is one step there; its crash points are in the runs of the same module.  A put that takes effect only after it was reported as failed, behind a later one, is not modelled.
- FolderStore.Store.FilesSince: is one step; what its reads give beside writers is stated by `FolderIndex.DeltaBeside`.
- FolderIndex.DeltaExact: reads the delta at one moment; `FolderIndex.DeltaBeside` does not.
- FolderStore.Store.FindBlockDir: references are visited in any order, so which of several directories is returned is not stated.
- `LockGuard::release` beside a renewal that is still under way: a holder makes one call at a time in `EpochLock`, so the renewal has ended there, with an error or otherwise.
- `unsafe_break_locks`: meant for when no instance runs, so it takes no part in the interleavings.
- Entry fields other than version, sequence, deletion, size and blocks; i64 overflow of sequences; UTF-8 in names (names are bytes).
- TLS, framing, compression, WebDAV, the command line, service and credential code: they carry bytes and settings to the parts modelled here.
- The compaction scheduler, statistics, retry backoff and the byte-budget channel: which compactions are chosen, what is counted, how long a retry waits and how many bytes may queue.
- Debug builds, in which the sum of a version's counters panics on overflow instead of wrapping.
- fsck and snapshot listings: checks and views over the rows modelled here.
- Clock suspension and sleep drift: the store clock is abstract and the local timer exact.
