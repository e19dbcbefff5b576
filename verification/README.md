# Storage engine of a Telegram-backed WebDAV server: a verified model

The program stores a user's files as messages in Telegram channels. A file's bytes travel through four
representations: 1 MiB chunks of a write-ahead log (a *buffered* file), blobs being packed and uploaded by a
background packer, extents over shared blobs (a *stored* file), and reference counts that tell a reaper which blobs
may be deleted. COPY, MOVE, DELETE, PUT, lease expiry, crashes, channel outages and the reaper rearrange the same
rows meanwhile. This project models that engine and proves that what a client sees survives all of it.

Three layers, joined by shared definitions:

* **Values and tables.** `Base`, `Paths` (normalized paths, prefix tests, the escaped LIKE pattern), `Wal` (chunks and
  windowed reads), `Extents`, `Tables` (node and blob rows, reference counts), `Tree` (the node tree held by path and
  by parent id; the effects of DELETE, MOVE and COPY on it and on the map from paths to contents), `Subtrees`,
  `Quota`.
* **The engine as a step system.** `Packer` (tracks, jobs and the builder/worker handshake) and `World`, a state with
  forty kinds of step: every filesystem transaction, every mutex section of the packer, every worker transaction,
  claims, lease releases, crashes, blob state changes, the clock and the reaper's separate list, delete-message and
  delete-row steps. `HandshakeProof`, `Invariant`, `Safety`, `DataPath`, `Lifecycle` and `Runs` prove one invariant
  of every state of every run; `Refinement` and `Fates` say what one step does to a plain map from paths to contents
  and to one row; `History` replays whole runs on that map and reads each file's log off its handle's steps;
  `Guarantees` draws the named consequences; `Overwrite`, `Grace`, `Splitting` and `Scenario` prove exactly where the
  assumptions are needed, with concrete runs.
* **The code's own loops.** `FileSystem` and `WriteFile` (the WebDAV operations on the tables), `Packing` (the
  builder), `Readers` (WAL and extent readers, the seekable handle, read-ahead planning), `Reaper`, `BlobCache` (the
  LRU cache) and `BlobReader` (multi-bot recovery) are classes and methods proved against those definitions.
  `Bridge` shows that the transactions of the filesystem, of the packer's finalize and of the reaper are steps of the
  engine.

Ids are natural numbers and fresh ids come from a counter; times are seconds; a transaction is one atomic step and
leaves the tables as they were when it fails. Every induction is written out: the lemmas switch off the verifier's
automatic one. The hash is an arbitrary function; answers of Telegram, insert failures and the clock are inputs. WAL and
extent rows reference their node with ON DELETE CASCADE, so a node's row holds them.

## What the code needs from its callers

The engine's guarantees are conditional in the code. The model says on what and, but for the last point, exactly when
they fail:

* An overwrite (PUT on an existing file) does not look at the packer. `Overwrite.OverwriteRule` shows over whole runs
  that whatever is written over a file survives whatever may follow exactly when no track that can still finalize
  packs the file; holding the lease is not needed, since a packer can claim the file again. If the packer already has
  the old bytes, `Overwrite.OldBytesReturn` finds a run that puts them back; `Scenario.UploadUndone` and
  `Scenario.OverwriteUndone` are concrete runs, with the upload still under way and with the finalize already decided.
  `Scenario.TablesDoNotTell` shows that the tables a PUT sees do not decide it. Runs therefore truncate a file only
  while no live track packs it.
* MOVE and COPY reject a destination inside the source but not a destination that contains it.
  `FileSystem.RenameKeepsSource` and `FileSystem.CopySourceFate` show that the source survives exactly when the
  destination does not contain it. `FileSystem.MoveOntoParentLoses` is a concrete MOVE that answers without an error
  and deletes what it was asked to move, `FileSystem.CopyOntoParentLoses` a concrete COPY that does so and leaves a file
  nobody can read. The comment on COPY promises only a check against copying into itself.
* The reaper lists a blob 10 minutes after its row was created. `Grace.LateFinalize` shows that its work can make a
  decided finalize commit a file without its message exactly when the blob is older than that, its row is stored and
  no file names it yet; `Scenario.GraceReached` is a run that gets there. Runs let the clock pass that point only when
  no live track still names the blob.
* A failed insert during Write keeps the bytes buffered, and a Close that follows writes them as one chunk
  (`WriteFile.OversizedPut`). `Wal.ReadsBack` shows that the file reads back exactly when that chunk is not larger than
  1 MiB; `WriteFile.WriteFile.Close` states the same of the handle. In the engine's runs no inserted chunk is larger.
* `splitLarge` ends only if its log stays. `Splitting.LoopEnds` shows that, with nobody else changing the log, the loop
  is left exactly when the size is covered already or the log still holds that many bytes; otherwise it turns for ever,
  and past the end of the log every turn enqueues an empty blob (`Splitting.TurnsForever`). `Scenario.SplitStarved` is a concrete run that gets there
  through a DELETE; as long as the file stays buffered under a live track the loop ends (`Splitting.BufferedEnds`).
* A read handle opened on a buffered row goes on reading the log. Once the rows are gone it delivers exactly what its
  reader had buffered and then the end of the file without an error (`Readers.StaleDrain`); nothing is missing exactly
  when the reader had asked for everything already (`Readers.WalReader.RowsGone`).
* The quota check of `Close` and of COPY is exact for the state it runs in; the pre-check of PUT agrees with it when
  nothing runs in between (`FileSystem.CheckQuotaExact`).
* A file has one open write handle. A second PUT of the same file truncates the row under the first. What two handles
  then do to each other is not modelled; the engine's runs take the Appends and the Close of a file to be those of the
  handle that opened it last.

## Model

| member | source | states |
|---|---|---|
| Paths.SelfMoveTest | internal/service/webdavfs/fs.go:487 | MOVE's string test for moving into itself is the same relation as COPY's pathHasPrefix |
| Paths.SubtreePattern | internal/repository/node.go:148-160 | for all strings, a path matches escapeLike(s)+"/%" under LIKE exactly when it begins with s+"/"; with equality that is "at or under s" |
| Paths.LikeLiteral | internal/repository/node.go:239-242 | an escaped prefix in a LIKE pattern matches that literal text and nothing else, whatever metacharacters it holds |
| Paths.LikeWildcards | internal/repository/node.go:148-160 | in a pattern % matches every string and _ exactly the strings of one character |
| Paths.LikeCharacter | internal/repository/node.go:239-242 | an ordinary character matches itself, and after a backslash every character does |
| Wal.ReadRangeIsSlice | internal/repository/wal.go:69-113 | reading only the chunks a window touches gives the same bytes as slicing the whole content, for every offset and length |
| Wal.ReadRangeLoop | internal/repository/wal.go:75-113 | the loop computes that windowed read |
| Wal.CopyChunks | internal/service/webdavfs/copy.go:173-193 | COPY's re-chunking loop reproduces the source's rows chunk for chunk, nothing for a file still being written, and ends |
| Wal.ChunksAreUnique | internal/repository/wal.go:69-74 | the content alone determines the chunks, however Write calls were cut |
| Wal.ReadsBack | internal/service/webdavfs/file.go:396-449 | full chunks and one last chunk read back right everywhere exactly when the last is at most 1 MiB |
| Extents.AssembleAt | internal/service/webdavfs/file.go:331-360 | in a tiled file the blob bytes of each extent sit at its file offset |
| Tables.RefsNamed | internal/repository/sqlc/blob.sql.go:34-48 | the number of extents naming a blob is positive exactly when some file names it, and never negative |
| Tree.DescendsIsUnder | db/migrations/20260616000001_init.sql:79-96 | a node is reached through parent ids exactly when its path is at or under the ancestor's, so the cascade and the path query agree |
| Tree.RemoveOk | internal/service/webdavfs/fs.go:439-471 | deleting a subtree keeps unique paths and child path = parent path + "/" + name |
| Tree.RemoveView | internal/service/webdavfs/fs.go:439-471 | afterwards every path outside the subtree shows what it showed and nothing else is there |
| Tree.RenameOk | internal/service/webdavfs/fs.go:490-537 | MOVE keeps unique paths and the agreement of path and parent id |
| Tree.RenameKeepsRows | internal/service/webdavfs/fs.go:474-538 | each node at s+t is afterwards the same node at d+t with id, content and lease; nothing stays under s and other nodes are untouched |
| Tree.RenameView | internal/service/webdavfs/fs.go:474-538 | on the map of paths MOVE is the move of one subtree, whatever was at the destination |
| Tree.CopyOk | internal/service/webdavfs/copy.go:101-140 | COPY keeps unique paths and the agreement of path and parent id |
| Tree.CopyView | internal/service/webdavfs/copy.go:16-20 | after COPY every d+t shows what s+t shows (only the top when not recursive) and nothing else changed |
| Subtrees.ChildAbove | internal/service/webdavfs/copy.go:128-138 | whatever lies below a node lies at or below one of its children, so recursion over children reaches the subtree |
| Subtrees.FewerBelow | internal/service/webdavfs/copy.go:128-138 | each child's subtree is strictly smaller: the recursion's measure |
| Subtrees.SourceUnchanged | internal/service/webdavfs/copy.go:128-138 | new nodes never enter the source subtree while it is copied |
| Subtrees.CopyChild | internal/service/webdavfs/copy.go:128-138 | copying one more child extends the copy by exactly that child's subtree |
| Quota.UsageRemove | internal/service/webdavfs/copy.go:62-71 | deleting a subtree frees exactly what subtreeSize reports |
| Quota.UsageOwn | internal/repository/sqlc/node.sql.go:326-329 | only the user's own files count: tables that agree on them give the same usage |
| Quota.UsageForeign | internal/repository/sqlc/node.sql.go:326-329 | another user's row, or a directory, added, changed or removed leaves the usage alone |
| Quota.UsageTaken | internal/repository/sqlc/node.sql.go:326-329 | a file of the user's own counts with exactly its size |
| Quota.UsageCopy | internal/service/webdavfs/copy.go:53-61 | a copy costs at most the source's subtree size, and exactly that when recursive |
| Quota.CopyWithinQuota | internal/service/webdavfs/copy.go:53-76 | COPY's check, made before anything changes, bounds the usage COPY leaves |
| FileSystem.Deltas | internal/service/webdavfs/fs.go:431-435 | the loop sums, per blob, the number of extents naming it, with sign |
| FileSystem.FileSystem.ListSubtree | internal/repository/node.go:148-160 | the query returns each node of the subtree once and no other |
| FileSystem.FileSystem.Delete | internal/repository/sqlc/node.sql.go:127-136 | the cascade removes exactly the subtree of the deleted node |
| FileSystem.FileSystem.ReleaseExtents | internal/service/webdavfs/fs.go:423-436 | every blob's refcount falls by the number of the node's extents naming it |
| FileSystem.FileSystem.RemoveWithin | internal/service/webdavfs/fs.go:541-558 | the references released are exactly those of the rows the cascade deletes |
| FileSystem.FileSystem.RemoveAll | internal/service/webdavfs/fs.go:439-471 | DELETE's answer; exactly the user's rows at p or beginning with p+"/" are gone, their references released, and nothing else changed |
| FileSystem.MoveFits | internal/service/webdavfs/fs.go:512-529 | no update of MOVE's loop ever hits the unique index, in whatever order the rows come |
| FileSystem.FileSystem.MoveRows | internal/service/webdavfs/fs.go:512-531 | the row-by-row loop never fails and moves the whole subtree |
| FileSystem.FileSystem.Rename | internal/service/webdavfs/fs.go:474-538 | which answer MOVE gives when, and its effect in path strings: every row at s+t is the same row at d+t, nothing is left at or under s, an overwritten destination is gone and released, other rows stay; refused, it changes nothing; a destination that contains the source |
| FileSystem.RenameKeepsSource | internal/service/webdavfs/fs.go:483-489 | a MOVE that reports success leaves something at the destination exactly when the destination does not contain the source |
| FileSystem.MoveOntoParentLoses | internal/service/webdavfs/fs.go:487-489 | a concrete MOVE onto an ancestor that succeeds and loses the directory |
| FileSystem.FileSystem.CopyStored | internal/service/webdavfs/copy.go:142-166 | a stored file's copy creates no blob and counts one more reference per extent |
| FileSystem.FileSystem.CopyLog | internal/service/webdavfs/copy.go:168-193 | a buffered file's copy has a log of its own with the same chunks |
| FileSystem.FileSystem.CopyAt | internal/service/webdavfs/copy.go:101-194 | copyNode copies the whole subtree, keeps reference counts exact, and terminates |
| FileSystem.FileSystem.CopyChildren | internal/service/webdavfs/copy.go:128-139 | the loop over children, with recursion, copies everything below the directory |
| FileSystem.FileSystem.CopyFits | internal/service/webdavfs/copy.go:53-76 | COPY's check accepts exactly when usage plus source minus destination is within the quota, whatever other users store |
| FileSystem.FileSystem.Copy | internal/service/webdavfs/copy.go:21-89 | which answer COPY gives when; without overwrite no existing row changes; every source row has its copy at d+t (only the top when not recursive), nothing else is at or under d, other rows stay; the quota bound; what happens onto an ancestor |
| FileSystem.CopyKeepsSource | internal/service/webdavfs/copy.go:21-89 | the source subtree and every node outside the destination keep their rows |
| FileSystem.CopySourceFate | internal/service/webdavfs/copy.go:34-36 | the source is still there after COPY exactly when the destination does not contain it |
| FileSystem.OrphanReadable | internal/service/webdavfs/copy.go:101-194 | the row COPY onto an ancestor leaves is consistent exactly when it is a directory or empty |
| FileSystem.CopyOntoParentLoses | internal/service/webdavfs/copy.go:34-88 | a concrete COPY of /a/f onto /a: it answers without an error, the source is gone and the new row claims bytes no table holds |
| FileSystem.FileSystem.EnsureRoot | internal/service/webdavfs/fs.go:198-229 | afterwards the user has a root directory, every row is as it was and at most that one was added |
| FileSystem.FileSystem.Mkdir | internal/service/webdavfs/fs.go:263-301 | MKCOL's answer in every case and the row it adds |
| FileSystem.FileSystem.TruncateNode | internal/service/webdavfs/fs.go:396-418 | an overwritten file is reset and every reference it held is released |
| FileSystem.FileSystem.OpenWrite | internal/service/webdavfs/fs.go:342-388 | which answer a PUT's open gives when; an exclusive or refused open changes no row; otherwise one empty open file is at the path, every other row stays, references kept exact |
| FileSystem.FileSystem.CheckQuota | internal/service/webdavfs/fs.go:565-586 | the pre-check over the user's own files; a user without files is refused exactly when the new bytes alone exceed the quota, whatever others store |
| FileSystem.CheckQuotaExact | internal/service/webdavfs/fs.go:560-564 | the pre-check accepts n > 0 bytes exactly when opening the path and closing after n bytes passes the check in Close |
| FileSystem.FileSystem.Commit | internal/service/webdavfs/file.go:454-485 | Close's transaction: only the user's own files count, usage never exceeds a positive quota afterwards, and a failed one leaves no half-written node |
| FileSystem.FileSystem.FinalizeNode | internal/service/wal.go:525-555 | a node is stored only if still buffered and leased by this packer and all blob rows exist; then it has the extents, no log and no lease; references follow the extents |
| FileSystem.FileSystem.MarkPermUnavailable | internal/service/blob.go:582-611 | exactly the files that have extents, all of them on the lost blob, are deleted, one by one, and the invariant survives their unreleased references |
| WriteFile.WriteFile.Write | internal/service/webdavfs/file.go:396-410 | log plus buffer are always exactly the bytes written, only chunks of exactly 1 MiB are inserted, other rows stay, and the call succeeds exactly when enough inserts do |
| WriteFile.WriteFile.Close | internal/service/webdavfs/file.go:438-487 | on success the row holds exactly the bytes written, chunk discipline holds exactly when the last chunk is not oversized, and the quota holds; a failed insert leaves the row, a failed commit deletes it |
| WriteFile.OversizedPut | internal/service/webdavfs/file.go:396-449 | a concrete PUT whose Write fails and whose Close succeeds: the stored file cannot be read past its first mebibyte |
| Readers.WalReader.Read | internal/service/webdavfs/file.go:293-315 | each Read delivers the next bytes of the log, at least one, and EOF exactly at the end |
| Readers.ExtentReader.Read | internal/service/webdavfs/file.go:331-360 | each Read delivers the next bytes of the assembled file; holes and short blobs never occur, only a failed fetch is an error |
| Readers.ReadFile.Seek | internal/service/webdavfs/file.go:231-250 | SeekStart goes to the offset, SeekCurrent moves by it, SeekEnd counts from the size of the content; a negative target or an unknown whence is refused and changes nothing |
| Readers.ReadFile.Read | internal/service/webdavfs/file.go:252-271 | after any seeks and reads, Read continues the content where the handle stands |
| Readers.Drain | internal/service/webdavfs/file.go:131-144 | from any position, reading into any sequence of non-empty buffers until EOF delivers exactly the rest of the file and ends |
| Readers.ReadWhole | internal/service/webdavfs/file.go:252-281 | a fresh handle, read to EOF through any sequence of non-empty buffers, delivers the row's whole content, whichever representation it is in |
| Readers.ServeRange | internal/service/webdavfs/file.go:231-271 | a ranged GET: seeking to the end gives the content's size, seeking to a and reading to EOF gives the content from a |
| Readers.StaleDrain | internal/service/webdavfs/file.go:293-315 | a handle on a buffered row whose log rows have vanished delivers exactly what its reader had buffered and then EOF without an error |
| Readers.SomeHolds | internal/service/webdavfs/file.go:362-369 | every offset of a tiled file lies in an extent, so extentAt always finds one |
| Readers.PlanBlobs | internal/service/webdavfs/file.go:189-212 | each blob once, at the lowest offset it serves, in offset order; for a tiled file one entry per extent |
| Readers.PlanAgrees | internal/service/webdavfs/file.go:167-222 | at every offset of a tiled file the plan and its index name the blob of the one extent that extentAt finds there |
| Packer.FinalizeDecided | internal/service/wal.go:405-490 | finalize is decided at most once, exactly when the track is planned and all its blobs have landed, and never for a failed track |
| HandshakeProof.JobLanded | internal/service/wal.go:478-489 | a worker's section after a stored blob keeps the handshake |
| HandshakeProof.BecomePlanned | internal/service/wal.go:371-379 | the builder's last section keeps it, whether or not blobs have landed already |
| HandshakeProof.OneFailed | internal/service/wal.go:573-590 | failing one track of a job keeps it |
| HandshakeProof.JobAdded | internal/service/wal.go:361-367 | emitting a blob for a set of tracks keeps it |
| Packing.Builder.RecordSegs | internal/service/wal.go:421-436 | the first section of seal gives every track in the run one extent on the blob and one outstanding job |
| Packing.Builder.PlanPending | internal/service/wal.go:442-452 | the last section of seal plans exactly the sealed tracks and returns those with nothing outstanding |
| Packing.Builder.LandJob | internal/service/wal.go:478-486 | the worker's section counts down each track of the job once and returns those that became ready |
| Packing.Builder.Seal | internal/service/wal.go:405-456 | the buffer becomes one blob with every waiting file, and those with nothing outstanding are returned for finalize; without a channel the run is given up; an empty buffer does nothing |
| Packing.Builder.PackSmall | internal/service/wal.go:383-401 | what the log gives of the file, all of it unless rows have vanished, is in the buffer at its segment; the buffer never exceeds the limit, and the runs, sealed or given up, keep next-fit order |
| Packing.Builder.PackRun | internal/service/wal.go:313-330 | a batch of small files packed without an idle seal, with logs that may have lost rows and seals that may find no channel: the runs hold exactly what the logs gave, and k blobs mean more than floor(k/2) full ones |
| Packing.TilesApart | internal/service/wal.go:392-396 | segments of one blob do not overlap and stay inside it |
| Packing.NextFitBound | internal/service/wal.go:383-401 | k blobs in next-fit order hold more than floor(k/2) full ones |
| Packing.Builder.SplitLarge | internal/service/wal.go:342-379 | when the log reaches the size, the pieces are the file in order, all in one channel, its extents tile it over them, and the loop ends |
| Packing.SplitCount | internal/service/wal.go:351-370 | a large file takes ceil(size/blobMax) blobs of 1..blobMax bytes |
| Splitting.LoopEnds | internal/service/wal.go:351-370 | with nobody else changing the log, splitLarge's loop is left exactly when the size is covered already or the log still holds that many bytes, for every blob size |
| Splitting.TurnsForever | internal/service/wal.go:351-370 | when the log falls short the loop turns k times for every k and is never left; past the end of the log every turn enqueues an empty blob |
| Splitting.BufferedEnds | internal/service/wal.go:351-370 | as long as the file stays buffered under a live track some run of the loop's turns leaves it |
| DataPath.EmitFits | internal/service/wal.go:351-370 | a piece read while the node is still buffered continues the file in the track's extents |
| DataPath.SealData | internal/service/wal.go:421-430 | a sealed segment's blob slice is the file it was read from |
| Lifecycle.RowsAreThere | internal/service/wal.go:525-555 | a decided finalize of a live track finds every blob row it names: the reaper cannot have taken one |
| Lifecycle.PlannedFits | internal/service/wal.go:525-555 | what finalize stores is the node's content |
| Lifecycle.Unreferenced | internal/repository/sqlc/blob.sql.go:238-245 | a row the reaper may list is named by no extent and no live track |
| Invariant.CopyStep | internal/service/webdavfs/copy.go:21-89 | COPY keeps the engine's invariant, tracks in flight included |
| Safety.PermGoneStep | internal/service/blob.go:582-611 | the perm-gone cascade keeps the invariant because it marks the blob |
| Runs.StepInv | internal/service/wal.go:279-590 | every kind of step keeps the invariant from every state that has it |
| Runs.RunInv | internal/service/wal.go:279-590 | the invariant holds in every state of every run |
| Refinement.StepRefines | internal/service/webdavfs/file.go:274-281 | each step is one update of the map from paths to contents, or none |
| History.LogIsWritten | internal/service/webdavfs/file.go:396-449 | in every state of every run an open file's log is exactly the chunks its handle appended since it was created or last truncated, a fact about the steps alone |
| History.RunRefines | internal/service/wal.go:279-590 | after any interleaving of all steps, what is seen is the filesystem transactions replayed in order on an empty map, each Close publishing the chunks appended before it |
| History.CloseIsRead | internal/service/webdavfs/file.go:273-281 | what was appended before a Close is exactly what the file reads as at every later point of every run, until it is truncated or deleted |
| Fates.ContentKept | internal/service/wal.go:525-569 | a closed file keeps its bytes through every step but its own truncation or deletion, finalization included |
| Guarantees.FreshHandleReads | internal/service/webdavfs/file.go:273-281 | in any state of any run a fresh handle's content is what the replayed filesystem transactions leave at that path |
| Guarantees.RefcountsConserved | internal/service/wal.go:538-551 | in every reachable state a blob's refcount is the number of extents naming it (at least that once lost), never negative |
| Guarantees.CollectionSafe | internal/service/maintenance.go:151-205 | a blob ever listed by the reaper is named by no extent and no live track then and ever after |
| Guarantees.BytesAreThere | internal/service/maintenance.go:146-150 | every blob an extent names has its row and, unless the channel lost it, its message |
| Guarantees.LossIsAbsorbing | internal/repository/sqlc/blob.sql.go:120-124 | no step takes a blob out of perm_unavailable |
| Guarantees.LossIsForever | internal/repository/sqlc/blob.sql.go:120-124 | along every run a permanently lost blob is lost, or its row gone, at every later point |
| Guarantees.EvictionUndone | internal/repository/sqlc/blob.sql.go:283-287 | after any run, marking the channel available makes a blob of it readable exactly if its row is still there and it is not permanently lost |
| Guarantees.EvictRule | internal/repository/sqlc/blob.sql.go:120-124 | age eviction takes down exactly the blobs of the channel with a smaller message number that are not permanently lost |
| Guarantees.DownRule | internal/repository/sqlc/blob.sql.go:300-304 | channel removal takes down exactly the blobs of the channel that are not permanently lost |
| Guarantees.ClaimRule | internal/repository/sqlc/node.sql.go:15-27 | a claim takes exactly a buffered file without a lease or with one that has run out, and leases it for ten minutes |
| Guarantees.CondemnRule | internal/repository/sqlc/blob.sql.go:238-245 | the engine's reaper lists exactly stored, unreferenced rows older than ten minutes |
| Guarantees.FinalizeOncePlanned | internal/service/wal.go:342-490 | the handshake's guarantee in every state of every interleaving; no wakeup is lost |
| Fates.StoredAtMostOnce | internal/service/wal.go:520-524 | a stored file keeps its extents and a buffered file its log until stored, whatever leases and tracks do |
| Guarantees.ExtentsAreFinal | internal/service/wal.go:520-524 | over any run, a stored file that is neither truncated nor deleted keeps one and the same set of extents |
| Guarantees.FileShapes | internal/service/webdavfs/fs.go:371-383 | every reachable file is writing, buffered or stored, each with exactly the rows that state allows; extents are numbered in order and none is empty |
| Overwrite.OverwriteRule | internal/service/webdavfs/fs.go:342-388 | over whole runs: every overwrite of a file survives whatever may follow exactly when no track that can still finalize packs it |
| Overwrite.OldBytesReturn | internal/repository/sqlc/node.sql.go:293-298 | if a live track has read the old bytes, then for every new content some run stores the old bytes in the file's row; if the track's packer has lost the lease, the run has it released and reclaimed first |
| Guarantees.StaleFinalize | internal/repository/sqlc/node.sql.go:338-351 | a pending finalize that holds the lease drops the new log and puts the old bytes back |
| Grace.LateFinalize | internal/repository/sqlc/blob.sql.go:238-245 | the reaper's work can make a decided finalize commit a file without its message exactly when the blob is past the grace period, stored and not yet named |
| Scenario.OverwriteUndone | internal/service/wal.go:525-555 | a concrete run in which an overwrite is undone by a finalize already decided |
| Scenario.UploadUndone | internal/service/wal.go:460-490 | a concrete run in which no finalize is decided and an overwrite is undone all the same by the packer alone |
| Scenario.TablesDoNotTell | internal/service/webdavfs/fs.go:342-388 | two reachable states with the same nodes and blobs: an overwrite is safe in one and not in the other |
| Scenario.GraceReached | internal/service/maintenance.go:151-205 | a concrete run to a decided finalize whose blob can be lost exactly when the clock has passed the grace period |
| Scenario.SplitStarved | internal/service/wal.go:351-370 | a concrete run after which the split of a deleted file enqueues k empty blobs for every k and is never left |
| Bridge.RenameIsStep | internal/service/webdavfs/fs.go:490-538 | MOVE's transaction is a step of the engine exactly when the destination does not contain the source |
| Bridge.CopyIsStep | internal/service/webdavfs/copy.go:41-88 | COPY's transaction is a step of the engine |
| Bridge.MkdirIsRun | internal/service/webdavfs/fs.go:263-301 | whatever MKCOL answers, the tables its method leaves are those of a run of the engine |
| Bridge.OpenIsStep | internal/service/webdavfs/fs.go:342-418 | a PUT's open, with all tables, is a step of the engine; for an existing file exactly when no live track packs it |
| Bridge.OpenIsRun | internal/service/webdavfs/fs.go:342-418 | whatever a PUT's open answers, the tables its method leaves are those of a run, unless it truncates a file a live track packs |
| Bridge.AppendIsStep | internal/repository/wal.go:31-51 | what AppendChunk leaves is a step of the engine exactly when the chunk is not oversized, and no change when it is refused |
| Bridge.CommitIsStep | internal/service/webdavfs/file.go:454-487 | what Commit leaves is the engine's Close or, when it fails, its CloseFail |
| Bridge.BatchIsRun | internal/service/maintenance.go:151-205 | what Reap leaves of a listing is a run of the engine's list, delete-message and delete-row steps |
| Bridge.FinalizeIsStep | internal/service/wal.go:525-555 | the packer's finalize transaction is a step of the engine |
| Reaper.RowUnnamed | internal/repository/sqlc/blob.sql.go:238-245 | a collectable row is named by no extent |
| Reaper.Maintenance.ListCollectable | internal/repository/sqlc/blob.sql.go:238-245 | distinct rows that are stored, unreferenced and older than 600 seconds; at most the limit, all of them if fewer |
| Reaper.Maintenance.Reap | internal/service/maintenance.go:151-205 | of a listing exactly those whose message is gone lose their rows, up to the first rate limit; a blob whose attempt failed keeps row and message; every deleted row was unreferenced and older than 600 seconds; no file loses a byte |
| BlobCache.SortOldestFirst | internal/service/cache/blobcache.go:132-137 | the insertion sort orders the scanned files by modification time and keeps them all |
| BlobCache.Cache.Rebuild | internal/service/cache/blobcache.go:99-148 | the index holds the longest most-recent prefix of the directory that fits, list and index agree |
| BlobCache.Cache.Get | internal/service/cache/blobcache.go:152-183 | a hit returns the file and becomes most recent; a vanished file drops its entry |
| BlobCache.Cache.Put | internal/service/cache/blobcache.go:189-228 | the survivors are the longest most-recent prefix that fits; only a blob larger than the cache is itself evicted |
| BlobCache.Cache.Evict | internal/service/cache/blobcache.go:305-316 | eviction from the back leaves the longest prefix that fits and an exact total |
| BlobCache.Cache.RemoveEntry | internal/service/cache/blobcache.go:320-330 | list, index and total stay consistent; the clamp at zero never fires |
| BlobCache.Cache.SweepIdle | internal/service/cache/blobcache.go:284-300 | with the list in order of last access the early exit removes exactly the expired entries and their files |
| BlobCache.Serve | internal/service/cache/blobcache.go:152-330 | under a monotone clock every sequence of calls, with files vanishing in between, keeps the list in order of last access and the total within its bound, so a final sweep leaves no expired entry |
| BlobCache.ServeFromScan | internal/service/cache/blobcache.go:99-330 | the same from a rebuild on, when the clock is not behind any file found |
| BlobReader.CandidatesOnce | internal/service/blob.go:339-415 | each enabled member bot whose parking time, if any, has come is a candidate once and no other bot is; those with a cached file id first, with that id |
| BlobReader.Candidates | internal/service/blob.go:339-415 | the loops build that list, each group in listing order |
| BlobReader.BlobReader.TryCandidate | internal/service/blob.go:422-528 | a download that matches the recorded hash is served as it is and one that does not match never is; gone only when forwarding itself found no message; a stale or corrupt file id is dropped; exactly the answer that ends the attempt parks the bot or ends its membership |
| BlobReader.NoteMeans | internal/service/blob.go:613-650 | a rate limit of r seconds makes the bot unusable until now + r and no longer, a refusal ends its membership of that channel, and no other bot or channel is touched |
| BlobReader.BlobReader.TryAll | internal/service/blob.go:306-329 | the first candidate that serves the blob wins and its bytes match a recorded hash; otherwise every candidate was tried |
| BlobReader.BlobReader.ReadBlob | internal/service/blob.go:267-337 | only bytes whose digest equals a recorded hash are returned or are in the cache directory; what the first serving candidate delivers is returned and cached; the blob is marked lost, and the files solely on it deleted, only when every candidate failed and one was told on forwarding that the message is gone |

## Left out

- Guarantees.ExtentsAreFinal: says nothing across a truncation, which is the client's own overwrite.
- Overwrite.OverwriteRule: takes truncate, inserts and Close of the overwrite as one step; the runs that may follow are
  any. It is about every new content at once: a particular one can survive by luck, for instance the same bytes again.
  Its losing runs may release a lease, which the engine allows at any time and the code does when another track of the
  file fails or is given up.
- Packing.Builder.SplitLarge: asks that the log reaches the file's size, because otherwise it does not end; that case is
  Splitting.LoopEnds.
- Readers.Drain: every blob can be fetched and the handle was opened after the last finalize; for a handle that holds a
  buffered row see Readers.StaleDrain.
- FileSystem.FileSystem.ListSubtree: returns the rows in any order, so the results do not rely on ORDER BY path.
- BlobCache.Cache.Rebuild: the directory is a map, one file per blob id; several spellings of one id as file names, disk
  faults and concurrent cache calls are not modelled.
- BlobReader.BlobReader.ReadBlob: the mark and the cascade are one call; a blob without a recorded hash is accepted as
  the code accepts it, and a cached file is trusted because only verified bytes are put there.
- Reaper.Maintenance.Reap: one batch without other transactions in between; the interleaved version is the engine's three
  separate steps.
- Leases, claims and scheduling are looser in the engine than in the code: any packer may claim a buffered file whose
  lease is free, any lease may be released, a packer may crash at any point.
- Deleting a user, whose rows cascade without releasing references; the settings, tokens and rate limiter around it.
- The bytes an unavailable or lost blob held: a file's content is what was written, and whether its blobs can be fetched
  now is a separate matter.
- Hashes, ETags, content types, timestamps and channel counters of the rows; SHA-256, encryption and path normalization.
- The Telegram client's pacing, retries and upload bot rotation; the choice of channel and bot is any.
- Isolation anomalies of the database, and I/O errors other than failed chunk inserts and failed fetches.
- HTTP handlers, directory listing, prefetching, the read-ahead goroutine's timing, bandwidth limits, statistics and events.
