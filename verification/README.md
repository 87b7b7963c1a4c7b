# A model of the go-fastdfs storage and replication engine

This project models what happens under `server/` when a file is uploaded, stored, logged,
offered to peers, fetched by them, removed, and repaired, and proves what the parts of the
engine promise each other. To verify it, run `dafny verify dfyconfig.toml` in this directory.

The state of a part is a value (`datatype`), and each operation is specified by a function
on that value. Where the server updates things in place, a class has the server's fields,
and its methods follow the server's branches and loops and are proved to compute exactly
that function. What the server promises is then proved about the functions: about single
steps, and about whole runs in which the environment chooses everything that the server
does not: contents, faults, peers' answers, the order in which nodes and goroutines act.

| file | what it models |
|---|---|
| `Types.dfy`, `Text.dfy`, `Totals.dfy` | records and configuration; Go's string and number functions; sums over maps |
| `SmallFileName.dfy`, `DownloadUrl.dfy`, `FileNames.dfy` | the names of small files, the URLs of files, the normalisation of names |
| `Haystack.dfy`, `Replica.dfy` | the shared blobs of small files, on the node that appends and on one that pulls |
| `DayLog.dfy` | the log database by its string keys, its listing, and the daily backup file |
| `Index.dfy`, `Stat.dfy` | the index, the logs and the counters that are kept in step; the recount and the statistics |
| `FreshName.dfy`, `Upload.dfy` | the search for an unused name; uploads without duplicates, and removals |
| `Transfer.dfy`, `Publication.dfy` | a node fetching one file from a peer; what it published while it fetches others |
| `Contents.dfy` | a store that uploads, removals and fetches work on together, and whether its files hold their contents |
| `Protocol.dfy` | one node offering files, taking offers, writing logs, sending failed files again |
| `Cluster.dfy`, `Obligation.dfy`, `Fanout.dfy` | any number of such nodes, interleaved; what is never forgotten; how often one file is offered |
| `FetchedCopies.dfy` | two runs of three nodes in which a fetched copy is not passed on |
| `Draining.dfy`, `Origins.dfy`, `Convergence.dfy` | that nodes come to rest; what may come to a node until then; where each content is logged then |
| `Agreement.dfy`, `AutoRepair.dfy` | when the nodes agree on a day after a repair of it; the comparison of days between nodes, and what it leads to in the end |
| `Collisions.dfy`, `Twins.dfy` | two files of one size that are bound for one path, and two nodes that have one each |
| `Queues.dfy` | the waiting in front of the bounded queues |

The checksum is ideal: `Sum` carries what was hashed, so equal checksums mean equal contents,
and the checksum of a content is never that of a path. A time comes with its calendar day. In
`Types.Config`, `host` is the node's own name, and `peers` those it offers files to.

## Where a promise has a condition

These hold only under a condition. The lemma named proves that it is the exact one; for fetched
copies, and for files that share a path while nodes drain their queues, lemmas about what lies
outside of it show that it is needed.

- A URL leads back to its file exactly when nothing in the path reads as an escape, a query or,
  for small files, a separator (`WholeFileRoundTrip`, `SmallFileRoundTrip`).
- The reader of resumable uploads splits the whole path at commas, so it agrees with the other
  reader exactly when no directory has one (`TusReaderAgrees`).
- An upload with an empty name can be written as `0_.` and recorded as `0_` (`RecordedPathIff`).
- With a name chosen by the caller, the loop changes `Name` while the record goes by `ReName`: the
  record is right if that name was free, or is the last that the loop tries (`CallersNameIff`).
- The counters drift exactly when a present content is added, removed or written back under
  another day or size, or an absent one is written back (`CountersExact`).
- The recount of a day loses every record that has no file of its own on disk, such as all
  small files (`RecountKeepsIff`).
- Not every file that a node indexes is queued or logged there for each peer: a fetched copy is
  not (`FetchedIsNotPassedOn`, five actions). Its content was uploaded somewhere, and each
  uploader whose copy was neither deleted nor overwritten serves every other node
  (`EveryHolderIsCovered`); once that copy is deleted, it may be that nobody does
  (`RemovedIsNotPassedOn`).
- After a repair, a node logs a content of the day if it indexes it under that day, or does not
  index it and is sent it: by a node that logs and holds it, whose record does not name the
  receiver and will name somebody to ask, while the receiver may write and has no file of that
  size under that path. All nodes agree on the union of the day if and only if that holds for
  each node and content (`RepairConvergesIff`); in an ordinary cluster, if and only if no content of
  the day is anywhere under another day (`OrdinaryConvergesIff`). A forced repair comes to that,
  and ends (`ForcedRepairAgrees`).
- That is so where no file that is sent gets in the way of a content of the day (`Undisturbed`). The
  code takes any file of the announced size under the path for the one announced. So a node
  that has neither of two such files comes to log at most one of them (`SharedPlace`), and two
  nodes that have one each never agree (`TwinsDisagree`).
- A published file stays in place while others are fetched if and only if none of those calls
  goes to its path, or has it for its temporary file, as `tmp__a.txt` is for `a.txt` (`TmpIsLost`), or
  for the blob that it reaches beyond (`StaysIff`), and none offers a newer file of the node's own
  under an announced size that is not that file's (`RecordedStayIff`).
- Indexed files hold their contents under uploads, removals and fetches if and only if no fetch
  replaces or writes into the file of another content, or has it for its temporary file, no
  removal goes by a stale record with the path of another content, and no migrated file is
  offered with other bytes (`ContentsStayIff`).
- A sender that has passed the waiting loop can block exactly when more than 1000 others (909
  for the log queue) may stand between test and send (`NeverBlocksIff`).

## Model

| member | source | states |
|---|---|---|
| `SmallFileName.RoundTrip` | server/fileserver.go:233-262 | behind any directory and before any slash-free query, a printed small-file name parses to exactly its blob, offset and size while the size is within the limit, and to an error for every larger size |
| `SmallFileName.TusReaderAgrees` | server/init.go:86-98 | the second reader decodes the same extent of the same blob if and only if no directory has a comma |
| `DownloadUrl.WholeFileRoundTrip` | server/fileserver.go:264-289 | the request printed for a whole file maps back to the record's own path if and only if the path has no `%` and the folder and name no `?` |
| `DownloadUrl.SmallFileRoundTrip` | server/fileserver.go:808-825 | the request printed for a small file maps back to its blob and its full small path, with the exact condition |
| `DownloadUrl.BlobOfRequest` | server/fileserver.go:275-289 | the blob alone is found under an exact condition that leaves the extension free |
| `DownloadUrl.BlobOfPath` | server/http_download.go:165 | cutting a small file's path at the first comma gives the blob's path, or something shorter if that path has a comma |
| `Text.FirstReplaced` | server/fileserver.go:812 | of a path, the first place of a pattern is replaced, and nothing else |
| `Text.NothingReplaced` | server/fileserver.go:812 | and a path without the pattern stays as it is |
| `DownloadUrl.EscapeRoundTrip` | server/fileserver.go:808-825 | a name that is escaped for the query of a URL is read back as it was |
| `DownloadUrl.PrintedUrl` | server/fileserver.go:808-828 | the URL printed is the group, the folder below the store and the name, and for a download the name once more, escaped so that it can be read back |
| `FileNames.Normalised` | server/http_upload.go:388-392 | the normalised name is a subsequence of the name, without special characters or `..`, and normalising again changes nothing |
| `FileNames.StripsEach` | server/http_upload.go:388-390 | each character of a name is kept or dropped on its own, whatever surrounds it: dropped if it is special |
| `FileNames.OnlyStripped` | server/http_upload.go:388-392 | a name without two dots in a row, once its special characters are gone, loses nothing else |
| `FileNames.RunLeft` | server/http_upload.go:391 | of each maximal run of n dots, exactly (n mod 3) mod 2 remain, independently of the surroundings |
| `Haystack.Disk.SaveSmallFile` | server/http_upload.go:482-539 | the blobs, the caller's record, the temporary file and the result, for every point at which it can fail |
| `Haystack.Disk.AppendSmall` | server/http_upload.go:519-531 | what reaches the end of the blob and what the record says then |
| `Haystack.ExtIs` | server/http_upload.go:494-495 | the extension kept for a small file is what follows the last dot behind the last slash of its name, with the dot, or nothing |
| `Haystack.FailedSave` | server/http_upload.go:508-533 | a save that fails leaves at the end of the blob the beginning of the marker and the content, as far as it got, changes no other blob, and leaves the record under its own path |
| `Haystack.NothingToSave` | server/http_upload.go:508-538 | if the uploaded file is not there any more, nothing changes, and success is reported |
| `Haystack.NewRecord` | server/http_upload.go:519-536 | a committed record is named after its extent, which starts where the blob ended and holds the marker and the content |
| `Haystack.RequestedExtent` | server/fileserver.go:291-316 | the request printed for a record asks for exactly its extent of its blob |
| `Haystack.Extents` | server/http_upload.go:506-537 | over every run with failing appends, the extents of committed records lie inside their blobs, start with the marker and are pairwise disjoint |
| `Haystack.ReadBack` | server/http_download.go:277-330 | over every run, both readers return for each committed record exactly the bytes it was saved with |
| `Haystack.ReadsIff` | server/http_download.go:291-330 | a small file is read just from an extent inside the blob that begins with the marker, and what is read is the rest of it |
| `Haystack.TusReadsIff` | server/init.go:91-104 | the reader of resumable uploads reads the same extents of the blob it finds, and panics on any claim of no byte or fewer |
| `Replica.WriteAt` | vendor/github.com/sjqzhang/goutil/goutil.go:359-378 | a write at an offset: the data there, the old bytes elsewhere, zeros in the gap |
| `Replica.ReceivedBlob` | server/http_download.go:165-166 | the replica writes a record into its blob of the same number |
| `Replica.ReplayInv` | server/http_download.go:147-173 | over every interleaving of appends, transfers and garbled replies, the replica holds each applied record, and zeros where no applied record lies |
| `Replica.ReplicaServes` | server/http_download.go:147-173 | the replica serves a record as the primary does if it was transferred, and answers not found if not |
| `Replica.OrderDoesNotMatter` | server/http_download.go:155-166 | two replicas that have applied the same records, in any orders with any repeats, hold the same bytes |
| `DayLog.KeyInjective` | server/fileserver.go:498 | equal log keys have equal date, log and checksum |
| `DayLog.Store.GetMd5sByDate` | server/fileserver.go:745-763 | the listing collects the third part of every key with the log's prefix |
| `DayLog.ListingExact` | server/fileserver.go:745-763 | after any writes and deletions, the listing of a log is exactly what is logged there |
| `DayLog.Store.BackUpMetaDataByDate` | server/http_backup.go:15-96 | both files it writes, for any order of the iterator |
| `DayLog.LogFileLines` | server/http_backup.go:79-82 | the log file has one line for each record, in the iterator's order |
| `DayLog.LineFields` | server/http_backup.go:79 | the line's fields are the checksum, the size, the time and the path |
| `DayLog.MetaFileLines` | server/http_backup.go:71-78 | the metadata file has the stored text of each record twice, under the checksum of the content and that of the path, in the iterator's order |
| `DayLog.NothingToBackUp` | server/http_backup.go:44-95 | no other file is touched, and neither of the two is left if no record of the day decodes |
| `DayLog.Store.GetMd5sMapByDate` | server/fileserver.go:708-743 | the set of checksums read from a day file, and whether there was one |
| `DayLog.ParsedExactly` | server/fileserver.go:732-740 | read from a file is the first field of each line with three fields or more, the second of them an integer |
| `DayLog.BackupRoundTrip` | server/http_backup.go:59-83 | reading the backup of a day gives exactly the checksums logged for it |
| `DayLog.BackupOfRun` | server/http_backup.go:59-83 | over every run of writes that log each record under its own key, reading the backup of a day gives exactly what was logged for it and not removed since |
| `Index.Database.SaveFileMd5Log` | server/fileserver.go:470-538 | index, logs and counters after a log entry of any kind |
| `Index.Database.SaveFileInfoToLevelDB` | server/fileserver.go:612-632 | a record put into the index also goes to its day's log |
| `Index.Database.RepairStatByDate` | server/http_repair.go:131-153 | the recounted counters, for any order of the iterator |
| `Index.RecountExact` | server/http_repair.go:131-153 | for every order and whatever is missing, the count is the number of different paths of listed records that are on disk, and the size is the sum over the first listed record of each; no other day changes |
| `Index.AddKeepsIff` | server/fileserver.go:499-516 | adding keeps every day's counters equal to its log if and only if the content is new or repeats its day and size |
| `Index.RemoveKeepsIff` | server/fileserver.go:517-535 | the same for removing |
| `Index.UpdateKeepsIff` | server/fileserver.go:626-630 | the same for writing a record back, which needs the content to be indexed still |
| `Index.CountersExact` | server/fileserver.go:499-535 | over every run, the incremental counters equal the number and summed size of each day's log entries throughout if and only if every call met its condition |
| `Index.LogsForgetNothing` | server/fileserver.go:492-537 | over every run, the error log and the queue log of a day hold exactly the contents logged there with a record of that day, save records without a checksum; each entry of any log is filed under its own record's day and checksum |
| `Index.RemovalsAreNotLogged` | server/fileserver.go:517-536 | over every run, the log of removals stays empty, because its key is deleted where it is to be written |
| `Index.RecountKeepsIff` | server/http_repair.go:131-153 | the recount gives the incremental count if and only if each record of the day has a file of its own on disk, and then changes nothing |
| `Stat.GetStat` | server/fileserver.go:838-886 | each day that has a size once, in ascending order, and a last row with the sums of the others |
| `Stat.StepConservesIff` | server/fileserver.go:499-535 | each call keeps the sum of all counters equal to the number of indexed contents, on whatever days; a write-back if and only if the content is indexed |
| `Stat.AllRowCountsContents` | server/fileserver.go:838-886 | over every run, with re-adds across days, the "all" row counts exactly the indexed contents |
| `FreshName.ChooseName` | server/http_upload.go:436-448 | the path and name that the loop ends with |
| `FreshName.CandidatesGrow` | server/http_upload.go:441-443 | candidates grow strictly, so none is tried twice |
| `FreshName.FreshPath` | server/http_upload.go:436-448 | with at most 10000 entries in the folder, the path is unused and is the one recorded |
| `FreshName.FirstFree` | server/http_upload.go:436-448 | the first free name is taken: the upload's own, or the first free one of the numbered candidates |
| `FreshName.Wanted` | server/http_upload.go:436-440 | with a free name, or with copies not unified, the upload goes where it asks to |
| `FreshName.Exhausted` | server/http_upload.go:441-447 | with all 10001 candidates taken, an existing file is overwritten |
| `FreshName.RecordedPathIff` | server/http_upload.go:442-443 | when the name asked for is taken, the record names the path written if and only if the name is not empty or `0_.` is taken too |
| `FreshName.CallersNameIff` | server/http_upload.go:437-447 | with a caller's name, the record names the path written if and only if that path was unused, or is the last candidate in a folder that has them all |
| `Upload.Server.SaveUploadFile` | server/http_upload.go:394-480 | the disk and the caller's record, also when the copy stops |
| `Upload.Server.Upload` | server/http_upload.go:282-353 | disk, index and reply of an upload |
| `Upload.Server.RemoveFile` | server/http_remove.go:52-136 | disk and index after a removal |
| `Upload.DuplicateIsDropped` | server/http_upload.go:288-308 | uploading an indexed content changes nothing at all and answers with its record |
| `Upload.NewIsStored` | server/http_upload.go:331-352 | a content that is not indexed yet, with no claim or the right one, is written under an unused path, indexed by its checksum and that path with its size, time and node, logged for its day and counted, and nothing else changes; it is answered with that record unless it is empty |
| `Upload.RepeatIsStored` | server/http_upload.go:288-352 | with copies not unified every upload is stored so, under the name it comes with |
| `Upload.RefusedIsNotIndexed` | server/http_upload.go:282-322 | an upload that fails or comes with a wrong checksum changes neither index nor logs nor any file; at most a new file is left behind, with what was copied |
| `Upload.RemovedExactly` | server/http_remove.go:99-136 | when a removal succeeds, and what it changes if it does, if the file cannot be deleted, and otherwise |
| `Upload.UploadKeeps` | server/http_upload.go:282-353 | an upload leaves every other file as it was, and answers only with a record whose file holds the uploaded bytes |
| `Upload.RemoveKeeps` | server/http_remove.go:52-136 | a removal touches no other record or file |
| `Upload.OnePathEach` | server/http_upload.go:288-331 | two contents are never indexed under one path |
| `Upload.RunKeeps` | server/http_upload.go:282-331 | over every run of uploads and removals with faults, each indexed content has exactly one indexed path, the file there hashes to it, and each indexed path is that of an indexed content |
| `Upload.AnswerLeadsToContent` | server/http_upload.go:340-352 | the URL an upload is answered with leads to a file with the uploaded bytes |
| `Transfer.Receiver.DownloadFromPeer` | server/http_download.go:42-203 | disk, index, queues and the caller's record after one attempt, in every branch |
| `Transfer.Receiver.ConsumerDownLoad` | server/http_download.go:17-40 | only the first usable peer of the list is asked |
| `Transfer.FirstUsable` | server/http_download.go:25-34 | the peer asked is the first of the list without a loopback address in its name and other than the node |
| `Transfer.NewerSurvives` | server/http_download.go:78-86 | where a copy may be overwritten, a file of a later time than the record survives with all else on disk, what is queued, logged or indexed for it carries its own time, and the index names the peers that have or take it |
| `Transfer.OlderIsReplaced` | server/http_download.go:87-202 | a file that is not of a later time is gone afterwards, or replaced by the body that arrived |
| `Transfer.NothingIsTried` | server/http_download.go:53-67 | a node that may not write, or has used up its tries, does nothing |
| `Transfer.TakenForIt` | server/http_download.go:73-77 | with copies unified, a file of the announced size under the path, or an indexed small file, is taken for the one announced, whatever its time |
| `Transfer.RequestedIff` | server/http_download.go:53-89 | and in exactly all other cases the file is requested |
| `Transfer.ConsumesHead` | server/http_download.go:20-37 | the worker takes the first record; it is put back at the end just if it was requested and the transfer failed, and dropped if nobody can be asked |
| `Transfer.OfferFindsBlob` | server/fileserver.go:394-402 | the offering node looks for the blob of a small file, and for any other under its own path |
| `Transfer.WholeFileAllOrNothing` | server/http_download.go:174-202 | a file is published and logged if and only if a body of the announced size arrived and was renamed; nothing else changes |
| `Transfer.MigratedAllOrNothing` | server/http_download.go:115-144 | the same where the code goes on after a wrong size, because the rename fails then |
| `Transfer.SmallFileAllOrNothing` | server/http_download.go:147-173 | a small file is logged if and only if its extent was written |
| `Transfer.RecordedOnlyInPlace` | server/http_download.go:78-202 | unless the call offers a newer file of the node's own under an announced size that is not that file's, a new record of a whole file, in the index or about to be, is of one in place with the recorded size |
| `Transfer.FetchSmallReceives` | server/http_download.go:155-166 | the small-file branch does to the bytes on disk what the replica of a haystack does |
| `Publication.StaysIff` | server/http_download.go:74-88 | a file in place stays so, whatever a call for another record meets, if and only if the call does not threaten it: by its temporary file, its path, or its blob |
| `Publication.TmpIsLost` | server/http_download.go:103-129 | a published file with the name of the temporary file of another one is deleted when a transfer of that one fails |
| `Publication.RecordedStayIff` | server/http_download.go:78-202 | over any sequence of fetches, every recorded whole file stays in place whatever they meet, if and only if no call ever threatens a recorded file, or may record a newer file of the node's own with an announced size that is not that file's |
| `Contents.IntactIff` | server/http_download.go:73-202 | one upload, removal or fetch leaves every indexed whole file with the content it is indexed by, whatever faults it meets and with honest replies, if and only if it goes to no other content's path, temporary name or blob and mislabels no newer file |
| `Contents.ContentsStayIff` | server/http_download.go:73-202 | the same over any sequence of uploads, removals and fetches on one node |
| `Contents.PutLeaves` | server/http_upload.go:449-480 | an upload leaves all files with their times, and gives its own to one that it adds |
| `Contents.WritesQueue` | server/fileserver.go:918-928 | log entries are written one after the other, as the consumer of the queue does it |
| `Transfer.PutBackIff` | server/http_download.go:125-128 | a record is queued again if and only if an attempt was made and its transfer failed |
| `Transfer.AttemptsBounded` | server/http_download.go:57-68 | one queued item is transferred at most max(1, RetryCount) times |
| `Transfer.AttemptsExact` | server/http_download.go:57-68 | a file that nobody can deliver is tried exactly that often |
| `Protocol.Server.PostFileToPeer` | server/fileserver.go:364-457 | index, queues and the record after the loop over all peers, for any answers |
| `Protocol.Server.Offer` | server/fileserver.go:386-455 | the same for one turn |
| `Protocol.Server.SyncFileInfo` | server/http_upload.go:37-43 | what taking an offer changes |
| `Protocol.TakenExactly` | server/http_upload.go:37-43 | a taken offer waits at the end of the download queue, a migrated file indexed at once, any other to be noted in the queue log |
| `Protocol.Server.ConsumeLog` | server/fileserver.go:918-928 | one entry of the log queue is written |
| `Protocol.Server.CheckFileAndSendToPeer` | server/fileserver.go:322-362 | what is queued for the checksums of a log |
| `Protocol.ResentExactly` | server/fileserver.go:345-360 | for every list of checksums, one entry in order for each that is indexed with a checksum, and forced or naming at most as many nodes as there are peers; each is the indexed record, naming the node alone if forced, and otherwise the node besides those it names |
| `Protocol.PostingNames` | server/fileserver.go:386-456 | after the loop the record names exactly those it named before and those that have or take the file |
| `Protocol.PostingIndexed` | server/fileserver.go:417-423 | the index has the record with just these names, and is untouched if none was added |
| `Protocol.PostingErrors` | server/fileserver.go:441-443 | each peer that is asked and fails leaves one entry for the error log, and nothing else does |
| `Protocol.PostingCopies` | server/fileserver.go:434-438 | each failed exchange queues one copy while retries are left, with retries rising by one each time |
| `Protocol.SkipIffReplicated` | server/fileserver.go:349-351 | for a duplicate-free list of the node and its peers, the length test skips a record if and only if every peer is in the list |
| `Protocol.SkipMeansReplicated` | server/fileserver.go:349-351 | without the node in the list, the test still skips only what every peer has |
| `Cluster.RunVouched` | server/fileserver.go:414-452 | over every run of any number of nodes, every list of peers, wherever it is held, is free of duplicates and names only nodes that have taken the content |
| `Cluster.ExchangeVouched` | server/fileserver.go:386-456 | the step behind it: an exchange in which the peer may have taken the offer although the answer was lost |
| `Cluster.UploadStores` | server/http_upload.go:288-332 | an upload at a node of the cluster is dropped if its content is indexed and copies are unified, and otherwise on disk, indexed, and on its way to every peer |
| `Cluster.QueuesRecord` | server/http_info.go:258-264 | a repair queues the indexed record, and a resend the record as it is to be sent |
| `Cluster.NotFound` | server/fileserver.go:414-423 | no peer says that it has a file if the file was migrated, copies are not unified, or it does not index the content or has lost its file |
| `Cluster.ReceivedIsConsumed` | server/http_download.go:17-40 | a fetch in the cluster is the turn of the worker |
| `Obligation.TurnKeeps` | server/fileserver.go:391-452 | one exchange leaves every peer served that was served before |
| `Obligation.RunForgetsNothing` | server/fileserver.go:364-457 | over every run, a copy uploaded at a node, not dropped as a duplicate and neither deleted nor overwritten since, by whatever step, has its content on disk, and each peer has taken the content, or the copy is queued or on its way to that peer, or its failure is logged or about to be |
| `Obligation.RunNotesOffers` | server/http_upload.go:37-43 | over every run, a node that has taken a content, and may be named as a holder anywhere, has uploaded it or has noted the offer in its own log, or is about to |
| `Obligation.SkippedIsReplicated` | server/fileserver.go:345-360 | over every run of a full mesh, an indexed content that is not sent again has been taken by every peer |
| `Obligation.EveryHolderIsCovered` | server/http_upload.go:331-332 | over every run of a full mesh, what any node has taken was uploaded somewhere, and each uploader whose copy was neither deleted nor overwritten still holds it and serves every other node |
| `FetchedCopies.FetchedIsNotPassedOn` | server/http_download.go:200-202 | a run of five actions after which a node has a file on disk and in its index, and does nothing for a peer that has not taken it |
| `FetchedCopies.RemovedIsNotPassedOn` | server/http_remove.go:114-126 | three actions later the uploader has removed its copy, and no node does anything for that peer |
| `Fanout.TurnMeasure` | server/fileserver.go:434-438 | a failed exchange that queues the file again conserves the number of calls still to come |
| `Fanout.StepMeasure` | server/fileserver.go:386-440 | that number falls by one with each call, and only new work raises it |
| `Fanout.WeightIsPower` | server/fileserver.go:435-436 | an item with r retries counts for 2^(RetryCount+1-r) calls |
| `Fanout.PassesBounded` | server/fileserver.go:386-440 | over every run, the calls made and still to come are at most 2^(RetryCount+1) for each file uploaded, and not dropped as a duplicate, queued from the index, or offered because it is newer than the one to be fetched |
| `Fanout.DrainExact` | server/fileserver.go:975-985 | with enough peers and no answers, emptying a queue takes exactly the summed number of calls |
| `Fanout.FreshFileExact` | server/fileserver.go:386-440 | for one new file that is 2^(RetryCount+1) |
| `AutoRepair.ReceiveMd5s` | server/http_info.go:241-268 | for each place of the list with a checksum that is not empty and is indexed, one entry, of its record, is queued, and nothing else |
| `AutoRepair.RepairDay` | server/http_repair.go:213-241 | the work scheduled for a pair of nodes is exactly the symmetric difference of their logs of the day, one entry for each content that is indexed, at the node that has it |
| `AutoRepair.DueCounts` | server/http_repair.go:232-241 | that is: a record is queued as often as it is that of one of those contents |
| `AutoRepair.PullExactly` | server/http_repair.go:204-231 | over all rows of a peer, it is to offer just what it logs and the node does not for some day that the node counts, with another count or because the repair is forced |
| `AutoRepair.PushExactly` | server/http_repair.go:204-241 | and the node what it logs for such a day and the peer does not |
| `AutoRepair.RepairPeer` | server/http_repair.go:204-249 | what a peer's list of days adds to the two queues, and which days are asked for as a whole |
| `AutoRepair.AutoRepair` | server/http_repair.go:160-252 | the same over all peers, some of which may not answer |
| `AutoRepair.AutoRepairRepairs` | server/http_repair.go:196-241 | a forced repair with peers that all list a day queues, of the contents of that day, just those that some node lacks, at holders, whatever other days are compared |
| `AutoRepair.ForcedRepairAgrees` | server/http_repair.go:160-252 | after a forced repair, every drain can be continued until nothing is on its way, and then the nodes agree on the union of the day if and only if each of them logged each of its contents before or is sent it; in an ordinary cluster, if and only if no content of it is anywhere under another day |
| `Origins.AnnouncedCame` | server/http_info.go:36-60 | what a peer takes in a drain it did not have for good at the start: it did not index it, or its file was lost or could be deleted |
| `Origins.DrainOrigin` | server/fileserver.go:386-456 | over every drain, what a node offers or fetches is of a file that was queued at the start, there or at a node that has it as a peer, and what a node had for good it still has |
| `Convergence.FetchOwn` | server/http_download.go:53-77 | as long as a node does not have a content, an offer of it is followed up, by somebody to ask, leave to write, path and size, just if it would have been at the start; otherwise it is dropped, and nothing that was coming in is lost |
| `Convergence.DrainInv` | server/http_info.go:241-300 | over every drain, a node that had the content keeps its day and its file, and to each node that some queued record will reach it is logged, arriving, or still to be offered |
| `Convergence.DrainLaw` | server/fileserver.go:386-456 | whatever is queued, of a content that no other gets in the way of, when nothing is on its way any more: a node that had it logs it under its own day only, and another node logs it if and only if some queued record lands there, and only under days of records that go there |
| `Agreement.RepairConverges` | server/http_repair.go:212-241 | after a repair, with any other days compared, each node logs for the day nothing that no node logged for it before, and of the contents that no other gets in the way of, just those it indexes under that day and those it lacks and is sent |
| `Agreement.RepairConvergesIff` | server/http_repair.go:212-241 | where no file gets in the way, all nodes agree on the union of the day if and only if each content of it is, at each node, indexed under that day, or not indexed and sent there |
| `Agreement.OrdinaryConvergesIff` | server/http_repair.go:212-241 | in a full mesh of nodes that may write and be asked, with each logged file on disk, records that name only nodes that index the content, and no file of its size under its path at a node that lacks it, they agree if and only if no content of the day is anywhere under another day |
| `Collisions.SharedPlace` | server/fileserver.go:222-229 | over every drain, of two whole files of one size that are bound for one path, a node that has neither comes to log at most one |
| `Collisions.SharedPlaceDisagrees` | server/fileserver.go:222-229 | so after a repair of a day that both belong to the nodes do not agree |
| `Twins.TwinsDisagree` | server/http_download.go:73-77 | two nodes, with one file each, of one size and under one path: all else is as it should be, and after a repair, however the queues are drained, they do not agree |
| `Draining.DrainBounded` | server/fileserver.go:386-456 | no drain takes more steps than the work at its start, counted with the times of the files, since a newer file is offered in place of an older one |
| `Draining.NeverStuck` | server/fileserver.go:975-985 | as long as anything is on its way anywhere, some step that succeeds can be taken |
| `Draining.DrainEnds` | server/fileserver.go:975-985 | from every state, every drain can be continued until nothing is on its way, within the work there was at its start |
| `Queues.HighWater` | server/fileserver.go:903-916 | with k senders between test and send, a queue never holds more than 9000 + k entries, and the log queue never more than 9091 + k |
| `Queues.NeverBlocksIff` | server/fileserver.go:459-468 | a sender past the test never blocks if and only if k is at most 1000, or 909 for the log queue |

## Left out

- Handlers, authentication, peer address checks, statistics pages, mail, image resizing, the search dictionary and the configuration: they do not touch the state modelled here.
- MD5 and SHA1: `Sum` is an ideal checksum, so collisions are outside the model.
- JSON: a record is stored and sent without its retry count, and otherwise unchanged.
- Calendar arithmetic: a `Stamp` carries its day, and 64-bit wrap-around of counters is not modelled.
- Database errors, the stat file, and lost entries on a crash: writes to the databases succeed; restarts and LoadQueueSendToPeer are outside.
- Locks and goroutines inside one operation: an operation, or one turn of the loop over peers, is one step; between such steps everything may interleave.
- Sharing of the Peers array between copies of a record: each copy has its own list here.
- WriteFileByOffSet failing half-way, and replies of exactly the announced length with other bytes: the length is all the code checks.
- Uploads through the tus protocol, and the reader's branch for an authentication URL: of tus only the reader of small files is modelled.
- Uploads into the haystack directory itself, or into folders with a `%`: the folder is used as a format string there.
- Merging of small files inside `Upload`: `Haystack` has it on its own, and `Upload.RunKeeps` is about unmerged files.
- Migrated records in the cluster: they are taken, offered, fetched, and offered again where a newer file is kept, but not uploaded, so that the runs of `Cluster.Run` have none; and repairs are of clusters without any, since a newer file is offered under a day of its own.
- Agreement.RepairConvergesIff: it is for repairs in which no file that is sent gets in the way of a content of the day, and each node that indexes a content of the day has its file; where two files of different sizes go to one path, it depends on their order what is there in the end.
- Convergence.DrainLaw: the same, for one content.
- Files deleted outside the server, and CleanLogLevelDBByDate: the error log is followed between daily cleans.
- Which peer an error log entry or a queued file is kept for: the code does not record it, and offers the file to every peer that its record does not name.
- Repairs that are not forced, and requests of a repair that fail after the comparison has started: equal counts with different sets are not repaired by design.
- The answer to a day that only the peer knows: `AutoRepair.RepairPeer` returns the days asked for; what the peer then sends is `Protocol.Server.CheckFileAndSendToPeer`.
- Transfers that fail while the nodes drain their queues: drains are those in which every request is answered. Whether a request is made is decided as the code does it; which peer it goes to is in `Transfer`.
- Agreement with EnableDistinctFile off, where a copy may be overwritten or kept because it is newer: `Convergence` is about clusters that have it on.
- RepairFileInfoFromFile and DownloadNotFound: their records under the checksum of a path are not modelled.
