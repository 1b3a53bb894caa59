# Quetzal in Dafny

Quetzal is a control plane for game servers. This project models the parts of it
where a crash, an interleaving or an odd byte decides whether the right thing
happens, and proves what each part is for. `dafny verify dfyconfig.toml` checks
the whole project (Dafny 4.11).

Two kinds of code are modelled.

**State machines around a database and a cluster.** A state holds the stored rows,
the external world and where each process stands in its own code; a step is one
read, one write, one API call, or something another party does. A run is any
sequence of steps, so every theorem about runs holds for every interleaving,
crash and lost answer.

| file | what it models |
|---|---|
| `BackupManager.dfy` | the backup operation manager: rows, Jobs, one leader in its four stages, the panel's requests, transfers; each write is acknowledged, done with its answer lost, or not done |
| `BackupSafety.dfy`, `BackupPasses.dfy` | the invariant of those runs, and that every step keeps it |
| `BackupRuns.dfy`, `BackupLifecycle.dfy` | what follows for whole runs; which step may take a row from which phase to which, and what a record's end tells |
| `BackupProgress.dfy` | what a leader that starts afresh can still do from any point of any run, and what it never does unseen |
| `BackupLimits.dfy`, `BackupSlips.dfy` | concrete runs that show where the exclusion and the order end, and that the exclusion ends exactly there |
| `BackupJobs.dfy` | names and lifetimes of the Jobs |
| `Uploads.dfy`, `UploadLocks.dfy` | the resumable upload: row, lock, files by inode, the panel's requests, and the helpers in the pod, which may outlive them |
| `UdpProxy.dfy` | UDP flows of the activator: listeners' mutexes, readers, sweeps, the atomic slot counter with its load and its compare-and-swap apart, the activity count |
| `Notify.dfy`, `NotifyRecords.dfy` | the notification outbox: the loops of a pass as methods that append to a log, and runs of passes cut off anywhere; what the stored records tell |
| `Waker.dfy` | the debounced wake callback |

**Algorithms over text, bytes, paths and documents.** The loops are methods over
arrays, maps, objects and streams, proved equal to specification functions, whose
own properties are the lemmas. Files named `...Text` and `MinecraftWire` tell what is
done on the characters and bytes themselves, without those functions.

| file | what it models |
|---|---|
| `Text.dfy`, `Decimal.dfy`, `Bytes.dfy`, `Utf8.dfy` | lines, splitting, trimming, order; numbers as text; bytes; UTF-8 as in section 4 of RFC 3629 |
| `IniFile.dfy`, `IniOverride.dfy`, `IniText.dfy`, `Properties.dfy`, `PropertiesText.dfy` | the INI and properties patchers |
| `Structured.dfy`, `StructuredTables.dfy`, `StructuredText.dfy` | dotted keys in nested documents, on values and in place on a tree of tables |
| `Resolve.dfy`, `ResolveExact.dfy` | symlink normalisation against the meaning of a path, and exactly when it keeps it |
| `Hardlinks.dfy` | the hardlink worklist of an unpacked archive over a tree of directories, files and symlinks |
| `Listing.dfy` | the listing printer and its parser |
| `Console.dfy` | the log stream cut between characters |
| `Minecraft.dfy`, `MinecraftWire.dfy` | VarInt, strings, packets, the handshake |
| `Ignore.dfy`, `IgnoreText.dfy` | ignore lists as restic patterns |
| `Ports.dfy`, `PortsText.dfy` | port normalisation |

## What was found

Where a promise turned out not to hold of the code, the code is kept as it is, a
lemma gives a run or an input that breaks the promise, and the theorem carries the
condition under which it holds, with its converse.

- *One operation in hand per server.* `MarkBackupDeleting` and `DeleteBackup` write
  by id alone. A second delete request that acts while the first one's Job is at
  work, or about to be submitted, makes the row forget that Job, and a second Job
  starts on the server (`BackupLimits.SecondDelete`). A claim of a deletion that takes
  effect without its answer, with another deletion of that server to come in the list,
  leaves the leader's set of busy servers short (`BackupLimits.UnansweredClaim`). Up to
  the first such step the exclusion holds (`BackupRuns.OneAtATime`); from each such step
  the run can go on to two in hand (`BackupSlips.SlipBreaks`). Two operations never run
  at once in any case.
- *Queue order.* An operation that is to be failed before it is reserved, and whose
  failure cannot be written, lets a younger import of its server go first
  (`BackupLimits.PassedByAnImport`). A transfer's hold does not reserve the server
  either. The older operations an operation overtakes are exactly those that were let
  pass in that way in the same pass (`BackupRuns.StartsInTurn`,
  `BackupRuns.PassesExactly`); a server none of whose operations is let pass keeps its
  order (`BackupRuns.StartsInOrder`).
- *Pieces of an upload.* `TouchUpload` releases the lock with the request, and the lock
  runs out by itself, while the helper in the pod may go on. A piece cut off in the
  middle and sent again can be written twice (`Uploads.CutConnection`), and so can one
  whose request outlives its lock (`Uploads.OutlivedLock`). The promises hold as long as
  nobody takes the lock beside another at work (`Uploads.ArrivedIsAPrefix`); whenever
  someone is at work though the lock is free, they can be broken
  (`Uploads.ExposureBreaks`).
- *Symlinks.* A link target that goes down a link and up again is read by its
  letters, and another file is answered with (`Resolve.LettersMislead`). Every name is
  answered rightly if and only if every link that can be answered leads where its
  letters lead (`ResolveExact.RightExactlyWhenFaithful`).
- *Hardlinks.* Reachable targets are not enough: with a link's name above another's, not
  both can be made, in neither order (`Hardlinks.NamesAboveNames`), and through a
  symlink a target can be met under a name no link has (`Hardlinks.ThroughSymlink`).
  `Hardlinks.FinishesExactly` adds what is missing.
- *Wake posts.* A failure that is cleared later than the cooldown wipes out the
  timestamp of a later post (`Waker.LateClear`). Letting a cooldown pass over a trigger
  still at work is exactly what breaks the rule (`Waker.LatenessDecides`).

## Model

| member | source | states |
|---|---|---|
| BackupRuns.AtMostOneJob | internal/backup/manager.go:81-389 | in every run, through crashes, refused writes and lost answers, an operation is given at most one Job |
| BackupRuns.CalledOffNeverRuns | internal/store/store.go:1212-1226 | an operation called off while pending never gets a Job, whatever the leader had read of it before |
| BackupRuns.ObservedNeverRunsAgain | internal/backup/manager.go:292-346 | once the UID of its Job is recorded, a running operation is never given another one |
| BackupRuns.EvidenceStands | internal/backup/backup.go:318-354 | an operation that got its Job and has no stored result is running, and that Job is there, the one whose UID was recorded, unless someone else deleted it; the cluster's own removal of Jobs with a time to live, which only a purge has, is a step of the runs |
| BackupRuns.ResultsComeFromJobs | internal/backup/manager.go:676-735 | no step but someone else's removes an operation's Job before its result is stored; a running operation ends only with the outcome of its own Job, the only one it was given |
| BackupLifecycle.OnlyWhatRanSucceeds | internal/backup/manager.go:102-153 | an operation that has succeeded, or whose backup is on its way out, was given its one Job and was running right before it succeeded; one that waited, is still there and was not started waits or has failed |
| BackupLifecycle.Lives | internal/store/store.go:1161-1277 | a row comes as a new request at the end of the queue, keeps its server and its kind, and changes phase only so: pending to running by a claim or to failed by an early failure, gone by being called off; running to succeeded or failed by a stored result, never gone; succeeded to deleting by a delete or retention; gone by an unconditional delete or, from deleting, by the leader |
| BackupLifecycle.RecordsOutliveSnapshots | internal/backup/manager.go:577-674 | a deletion marked as forgotten, or whose record the leader drops, had its own forget Job end well at an earlier point of the run |
| BackupProgress.CanBeStarted | internal/backup/manager.go:98-266 | from any point of any run, an operation that waits for a server with nothing in hand and is not held for a transfer can be started: the row runs on its Job, whose UID is recorded, and nothing else changes |
| BackupProgress.CanBeFailed | internal/backup/manager.go:102-130 | from any point, an operation that waits can be failed, and only it |
| BackupProgress.CanBeSubmittedAgain | internal/backup/manager.go:360-389 | from any point, an operation claimed without UID and without Job can be given its Job |
| BackupProgress.MadeOnlySo | internal/backup/manager.go:238-266 | a Job of an operation is made only right after its claim or by a leader about to submit it again |
| BackupProgress.ResumedOnlyUnseen | internal/backup/manager.go:360-389 | a leader about to submit an operation again has looked for its Job and its pods before, with no UID on record, found neither, and done nothing since |
| BackupProgress.CanBeDeleted | internal/backup/manager.go:620-664 | from any point, a backup on its way out whose forget Job is not there can get it, if it has claimed it or its server has nothing in hand |
| BackupProgress.CanBeForgotten | internal/backup/manager.go:594-620 | from any point, one whose forget Job has ended well, or that is marked, can lose its Job and its record, and nothing else changes |
| BackupProgress.CanBeRetried | internal/backup/manager.go:606-614 | from any point, one whose forget Job failed keeps its record and can lose that Job |
| BackupProgress.ResubmittedOnlyUnseen | internal/backup/manager.go:598-625 | a leader about to submit a deletion again has looked for its Job and its pods before, found neither, and done nothing since |
| BackupProgress.CanBeCleaned | internal/backup/manager.go:676-708 | from any point, the Job of a finished operation can be deleted and its row cleared |
| BackupProgress.DeleteRequests | internal/api/backups.go:327-385 | a delete request puts a finished backup of this target on its way out, removes the record of any other operation that is over, and does nothing to one that is not |
| BackupProgress.StartsUnderTransfer | internal/backup/manager.go:127-129 | while a server is held for a transfer only the transfer's own operations start there, and none once it is cancelled |
| BackupProgress.RetentionIsForTheServer | internal/store/store.go:1444-1463 | retention takes only finished backups of the server whose backup has just succeeded, their own Jobs cleaned up |
| BackupRuns.CanBeSettled | internal/backup/manager.go:268-350 | from any point of any run, a leader that starts afresh stores the result of a running operation whose Job has ended, wherever it stands in the list |
| BackupRuns.OneAtATime | internal/backup/manager.go:57-72 | two operations of a server never run at once; and until a delete takes a row's Job from it or a claim is lost with another deletion to come, one operation or deletion at most is in hand and one Job at most is going per server |
| BackupSlips.SlipBreaks | internal/store/store.go:1502-1522 | the exclusion ends exactly there: a run slips by a delete of a row whose Job is at work or about to be submitted, or by a lost claim with another deletion of the server to come, and from each such step it can go on to two in hand or two Jobs going on one server |
| BackupRuns.StartsInTurn | internal/backup/manager.go:98-241 | an operation starts only from the queue, on a server with nothing in hand and not held for another transfer; of the others waiting for that server, the older ones are exactly those let pass in this pass |
| BackupRuns.PassesExactly | internal/backup/manager.go:98-130 | an operation is let pass exactly at the front of the list, when its failure could not be written or its free server is held for a transfer |
| BackupRuns.StartsInOrder | internal/backup/manager.go:98-130 | a server none of whose operations was let pass starts them in the order they were asked for, whatever happens to other servers |
| BackupRuns.RunKeepsInv | internal/backup/manager.go:47-52 | every run keeps the invariant that ties rows, Jobs, requests, history and the leader's position together |
| BackupRuns.RunGrows | internal/backup/manager.go:47-52 | Jobs made, results stored and operations called off stay so |
| BackupPasses.DoKeepsInv | internal/backup/manager.go:47-820 | every single step of the leader, the panel and the cluster keeps the invariant |
| BackupPasses.StartsKeep | internal/backup/manager.go:81-266 | so does every step of the pending stage, the two reads of the busy servers apart included |
| BackupPasses.FollowsKeep | internal/backup/manager.go:268-389 | so does every step of the running stage, resubmission included |
| BackupPasses.DeletesKeep | internal/backup/manager.go:577-674 | so does every step of the deleting stage |
| BackupPasses.CleanupKeeps | internal/backup/manager.go:676-708 | so does every step of the cleanup stage |
| BackupPasses.ClaimKeeps | internal/store/store.go:1227-1277 | a claim that takes effect on a pending row of a free server keeps rows, Jobs and history in order |
| BackupPasses.SettleKeeps | internal/store/store.go:1444-1463 | so does storing a result with the retention it queues |
| BackupPasses.ClaimTakes | internal/store/store.go:1516-1522 | so does the claim of a deletion, and without another one of the server to come even if the leader does not learn of it |
| BackupSafety.OthersKeepInv | internal/store/store.go:1502-1515 | what the panel, the cluster and a crash do under the leader keeps the invariant, unconditional deletes included |
| BackupLimits.SecondDelete | internal/store/store.go:1509-1515 | a run in which a second delete request puts two Jobs to work on one server |
| BackupLimits.UnansweredClaim | internal/backup/manager.go:577-664 | a run in which an unanswered claim of a deletion puts two deletions of one server in hand |
| BackupLimits.PassedByAnImport | internal/backup/manager.go:102-128 | a run in which a refused write lets a younger operation of the server start first |
| BackupJobs.NamesAreUnique | internal/backup/backup.go:137-148 | Jobs have the same printed name exactly when they are for the same operation, deletion or purge |
| IniFile.ApplyIni | internal/configfile/configfile.go:231-309 | the loops of the INI patcher, in place on the lines and over maps in any order, write the rendered text |
| IniFile.ParseIniKey | internal/configfile/configfile.go:341-363 | one pass with a depth counter splits a key as its specification says |
| IniFile.KeyOfMeaning | internal/configfile/configfile.go:335-363 | the section ends at the first dot outside brackets, the brackets are dropped, both parts are trimmed |
| IniFile.IniKeys | internal/configfile/configfile.go:323-333 | the loop over the raw keys gives the accepted ones |
| IniFile.KeysMeaning | internal/configfile/configfile.go:323-333 | accepted are exactly the keys a line can hold, each with the one-line value of the last raw key that names it |
| IniFile.RewriteInPlace | internal/configfile/configfile.go:240-259 | the first scan rewrites the lines that assign a managed key, where they stand, and knows which keys it met |
| IniFile.Gather | internal/configfile/configfile.go:264-274 | the keys not met are gathered by section, whatever order the map and the unstable sort give them |
| IniFile.FlushInto | internal/configfile/configfile.go:276-289 | a section's missing keys go after its last line with content, before its blank lines |
| IniText.RenderedText | internal/configfile/configfile.go:231-309 | told on the text: every line of the old file is there, in order and under its header; a line of blanks, an accepted key, blanks, = and any value, under a header of the key's section in any blanks, becomes key=new; every other line is as it was; besides, for each accepted key no line assigned, a line in its section right after the last line with content, or below a new header at the end; and every line that assigns an accepted key says its new value |
| IniText.SetsReads | internal/configfile/configfile.go:240-259 | a line is read as an assignment exactly when it is blanks, a key without blanks around it, blanks, = and the value, and no header or comment |
| IniText.TitledReads | internal/configfile/configfile.go:311-318 | a line is a header exactly when it is blanks, [, the name in blanks, ], blanks |
| IniText.CommentsSayNothing | internal/configfile/configfile.go:246-249 | a line whose first character that is not blank is # or ; is neither header nor assignment |
| IniText.WrittenKeys | internal/configfile/configfile.go:335-363 | section.key, [section.with.dots].key and key name what they look like |
| IniOverride.RenderOverrides | internal/configfile/configfile.go:231-309 | for any file and any values, read by the same scan: every accepted key has its new value at all its occurrences or at one new line, every other key what it had, and all unmanaged lines stay in order and section, with the new headers at the end |
| IniOverride.RenderTwice | internal/configfile/configfile.go:231-309 | rendering again with the same values leaves the file byte for byte as it is |
| Properties.ApplyLineKV | internal/configfile/configfile.go:187-216 | the loops of the properties patcher write the rendered text |
| Properties.KeysMeaning | internal/configfile/configfile.go:511-521 | accepted are exactly the keys a line can hold, trimmed, each with the one-line value of the last raw key that names it |
| PropertiesText.RenderedText | internal/configfile/configfile.go:187-216 | told on the text: old lines stand in their places, those that assign an accepted key, in whatever blanks, as key=new and all others as they were; the accepted keys that no line assigned follow in order |
| PropertiesText.SetsReads | internal/configfile/configfile.go:197-210 | a line is read as an assignment exactly when it is blanks, a key without blanks around it, blanks, = and the value, and the key begins with no comment mark |
| PropertiesText.CommentsSayNothing | internal/configfile/configfile.go:198-201 | a line whose first character that is not blank is #, ! or ; assigns nothing |
| Properties.RenderOverrides | internal/configfile/configfile.go:187-216 | patching a properties file overrides exactly the accepted keys and keeps every other line |
| Properties.RenderTwice | internal/configfile/configfile.go:187-216 | rendering again with the same values leaves the file byte for byte as it is |
| Text.SplitLines | internal/configfile/configfile.go:532-543 | lines are cut and each loses the carriage returns at its end, in place |
| Text.LinesOfUnlines | internal/configfile/configfile.go:532-550 | a file written from whole lines is read back as those lines |
| Text.OneLine | internal/configfile/configfile.go:498-505 | a value keeps its length and every character but its line breaks, which become spaces |
| Text.SortedIsUnique | internal/configfile/configfile.go:523-530 | a set of keys has one sorted order, so the patchers' output does not depend on the map's |
| StructuredTables.Table.SetPath | internal/configfile/configfile.go:404-414 | setting a value at a path changes the tables in place as the document's function says, and leaves tables off the path alone |
| StructuredTables.Table.ApplyKeys | internal/configfile/configfile.go:386-396 | the loop over the sorted keys leaves the rendered document |
| Structured.AtAfterSet | internal/configfile/configfile.go:404-414 | after one value is set: the value at its path, objects above, nothing beneath, all else as before |
| Structured.RenderPatches | internal/configfile/configfile.go:386-414 | after all keys: objects above keys, each key with no longer one beneath it reads back, nothing else beneath a key, unrelated paths as before |
| StructuredText.PatchedUnder | internal/configfile/configfile.go:386-414 | told on the text of the keys: under names without dots there is an object if some key goes on after these joined by dots, else the value of the key they make, nothing if a key is made of the first of them, else what was there |
| Structured.RenderTwice | internal/configfile/configfile.go:386-414 | applying the keys again gives the same document |
| Resolve.ResolveName | internal/fileops/resolve.go:14-60 | the bounded loop and its restarted scan answer as the passes do |
| Resolve.ResolveKeepsMeaning | internal/fileops/resolve.go:14-60 | with links of leading dot-dots then plain names, an answer denotes what the name denotes and has no link before its first missing component; each error is true of the walk; a name is refused for its links only if its walk goes through forty |
| Resolve.PassesAnswer | internal/fileops/resolve.go:22-59 | the same for any bound on the passes |
| Resolve.ScanAgrees | internal/fileops/resolve.go:23-56 | one pass agrees with the walk: it ends as the walk does, or its rewritten name meets the walk just behind one link |
| Resolve.RelativeIsPlain | internal/fileops/fileops.go:84-93 | the names handed to the normalisation are clean |
| Resolve.LettersMislead | internal/fileops/resolve.go:43-52 | a target that goes down a link and up again is answered with another file |
| ResolveExact.RightExactlyWhenFaithful | internal/fileops/resolve.go:14-60 | every clean name is answered rightly, following the last link or not, if and only if each link that can be answered walks to where its cleaned letters walk, or out of the volume with them |
| ResolveExact.AnswersRight | internal/fileops/resolve.go:22-59 | with such links, any number of passes up to forty answers with a name of the same meaning, without links before its first missing component, or with an error true of the walk |
| ResolveExact.TameIsFaithful | internal/fileops/resolve.go:43-52 | links of leading dot-dots then plain names are such links |
| Uploads.Files.UploadAppend | internal/fileops/fileops.go:304-328 | the loop over the reads leaves the file and the answer of its specification: a piece for another offset is told the true length, else all that arrived is appended, cut off or not |
| Uploads.StepsAppend | internal/fileops/fileops.go:304-328 | in the protocol, a helper's open, its writes in any reads and its close, or its end where the piece was cut, leave the same file and give the same answer |
| Uploads.Files.UploadFinishFile | internal/fileops/fileops.go:329-353 | a file is put in place exactly when it has the length asked for, and is then gone from its temporary name |
| Uploads.StepsFinish | internal/fileops/fileops.go:329-353 | in the protocol, a helper's check and its rename do the same |
| Uploads.ArrivedIsAPrefix | internal/api/uploads.go:238-354 | under retries, cuts, partial writes, stops, competing requests and helpers that outlive their requests, as long as nobody takes the lock beside another at work: what arrived is a beginning of the file and no longer, only the whole file is put in place, one request or helper works at a time, every answer tells the true length |
| Uploads.ExposureBreaks | internal/api/uploads.go:259-263 | from every point where a request or a helper is at work though the lock is free, the next request can be at work beside it, and a helper with bytes of its piece left can make the temporary file longer than the file |
| Uploads.CutConnection | internal/api/uploads.go:263-269 | a piece cut off in the middle, sent again while its helper still has the rest, is written twice |
| Uploads.ArrivedStays | internal/api/uploads.go:238-354 | what arrived is lost only to a finish that puts the whole file in place or to a removal |
| Uploads.CanBeFinished | internal/api/uploads.go:212-337 | from any idle point of such a run, asking for the size, sending the rest in pieces and finishing puts the whole file in place |
| UploadLocks.LockHolds | internal/store/upload.go:50-60 | over whole runs, a request that takes the lock keeps all others from work for sixteen minutes with a piece, sixty-one with a finish and two with a removal, as long as no request ends |
| UploadLocks.EndsOverOrFree | internal/api/uploads.go:290-347 | a request that ends leaves the upload over exactly when it put it in place, removed it, or failed to unpack it; else free at once |
| UploadLocks.OverForGood | internal/store/upload.go:68-71 | an upload that is over is never worked on by a new request |
| Uploads.OutlivedLock | internal/store/upload.go:45-60 | a request at work when its lock has run out comes to such a point |
| UdpProxy.SlotsAreReaders | cmd/activator/proxy.go:290-304 | slots are those of live readers plus one flow at most per listener on its way to a reader, never more than the limit, and none when all is over |
| UdpProxy.ServedBelowTheLimit | cmd/activator/proxy.go:290-346 | from any point of any run, a new client of an idle listener gets an entry with a live reader exactly when fewer slots are taken than the limit, which is the one configured or 128; it costs one slot and one count, other entries stay, and one that is refused leaves no trace |
| UdpProxy.RefusedOnlyWhenFull | cmd/activator/proxy.go:295-304 | an acquisition ends without a slot exactly at a load that finds them used up, and with one exactly at its own compare-and-swap, whatever others do in between |
| UdpProxy.FlowsEnd | cmd/activator/proxy.go:375-447 | from any point at which its listener is idle, a served flow whose backend is done gives back entry, count and slot, and touches nothing else |
| UdpProxy.CountIsEntries | cmd/activator/proxy.go:40-47 | the activity count is map entries plus counted TCP flows but for changes under way, and is never counted down from zero |
| UdpProxy.EntriesAreRead | cmd/activator/proxy.go:329-346 | every map entry has a reader that has not ended or is just being started, and no flow is registered twice |
| UdpProxy.OnlyItsReaderRemoves | cmd/activator/proxy.go:416-447 | an entry goes only by a sweep or shutdown or by its own reader: a late reader leaves a newer flow of the client alone |
| UdpProxy.DoKeepsSound | cmd/activator/proxy.go:290-447 | every step of every party keeps the sums and the shape of the shared state |
| Notify.Dispatcher.DeliverWithRetry | internal/notify/notify.go:220-251 | what the loop appends is n tries with pauses between them, n at most the attempts configured and at least one: each but the last failed so that another may help; the k-th pause is the smaller of ten seconds and the server's Retry-After, or else the backoff doubled k-1 times; it ends with the first success, at the last attempt, with a failure another try cannot change, or, between two tries, because the context was cancelled, and the answer says which |
| Notify.Retryable | internal/notify/notify.go:285-313 | tried again are statuses from 500 on, 408 and 429, replies 400 to 499 of a mail server, and network failures; nothing else |
| Notify.Dispatcher.Dispatch | internal/notify/notify.go:183-215 | the loop over the channels does what its function says |
| Notify.Dispatcher.Drain | internal/notify/notify.go:139-170 | a pass appends its log and leaves the cursor at its last move |
| Notify.DeliverDelivers | internal/notify/notify.go:220-251 | a delivery makes at most the attempts left, stops at the first success, goes on only after failures another try could change, and never pauses more than ten seconds |
| NotifyRecords.OnlyTakersAreContacted | internal/models/notification.go:268-284 | what a pass sends or stores is for an event past the cursor and a channel that takes it: of that server or of all, by its list of kinds or, with none, for every kind that is not quiet |
| NotifyRecords.RecordsTell | internal/notify/notify.go:183-215 | a success is stored right after the delivery that succeeded; a miss right after the last try failed, or because the channel failed so earlier in the pass, or its settings could not be read |
| NotifyRecords.PassesFinish | internal/notify/notify.go:139-170 | a pass that is not cut off or stopped, with room for the outbox, moves over every event past the cursor, however the deliveries fail |
| Notify.ChannelsInAPass | internal/notify/notify.go:139-251 | in a pass one event costs a channel at most the attempts configured, and a channel that failed for good is not contacted again |
| Notify.CursorPassesHandled | internal/notify/notify.go:139-215 | through any number of passes cut off anywhere, the pass that moves the cursor over an event has itself, in its own part of the log, sent it to every enabled channel that takes it or recorded it as missed |
| Notify.NothingPastTheCursor | internal/notify/notify.go:160-181 | the cursor only moves forward, and an event it has reached is never sent again |
| Notify.ResentOnlyIfInterrupted | internal/notify/notify.go:139-181 | of two passes that send an event, the earlier did not move over it, did nothing but serve it from then on, and was cut off or stopped while it did |
| Notify.NoneIsSkipped | internal/notify/notify.go:139-170 | with ids appended in ascending order, no event between the start and the cursor is passed over |
| Notify.ContactsInOrder | internal/notify/notify.go:155-215 | a channel contacted for a second event in a pass was sent the first and the cursor had moved over it; contacted twice for one event, the first try failed |
| Console.ForwardText | internal/console/console.go:361-383 | whatever the reads, what is handed on is the input, never more than three bytes behind it, in a buffer that never overflows, and in whole characters when the input is valid UTF-8 |
| Console.WholeRunes | internal/console/console.go:388-398 | a block is cut at its last character when that is unfinished, and nowhere else |
| Console.CutIsValid | internal/console/console.go:388-398 | a beginning of a valid text is cut into whole characters |
| Minecraft.AppendVarInt | cmd/activator/minecraft.go:89-96 | the loop appends the groups of seven bits |
| Minecraft.ReadVarInt | cmd/activator/minecraft.go:72-87 | the loop reads a VarInt off the stream; raw is what it took |
| MinecraftWire.VarIsRead | cmd/activator/minecraft.go:72-87 | a VarInt is read exactly where one to five bytes stand, all but the last with the high bit set, whose groups of seven bits, lowest first, are the number in 32 bits |
| MinecraftWire.AppendedIsOne | cmd/activator/minecraft.go:89-96 | what is appended for a number is such bytes |
| MinecraftWire.PacketIsItsBytes | cmd/activator/minecraft.go:102-143 | a packet is taken exactly where its length, admitted, and as many bytes stand, the first of them the id looked for |
| MinecraftWire.HandshakeIsItsBytes | cmd/activator/minecraft.go:125-173 | a handshake is taken exactly where its bytes stand at the front of the stream: length, a zero, protocol, length and text of the address, the port as 256 times one byte and the next, a next state from 1 to 3, nothing more |
| Minecraft.VarRoundTrip | cmd/activator/minecraft.go:72-96 | for every int32 and any bytes after it, reading undoes appending, takes one to five bytes and leaves the rest |
| Minecraft.TextRoundTrip | cmd/activator/minecraft.go:175-190 | a valid text that fits is read back |
| Minecraft.ReadPacket | cmd/activator/minecraft.go:102-143 | a packet is taken exactly when its length and first byte are admitted and all of it is there, and raw is what was taken |
| Minecraft.PacketRoundTrip | cmd/activator/minecraft.go:102-198 | a packet written is the packet read |
| Minecraft.ReadMCHandshake | cmd/activator/minecraft.go:148-173 | whatever the bytes, a handshake that is taken is the one at the front of the stream and its raw bytes are those taken off it |
| Minecraft.HandshakeRoundTrip | cmd/activator/minecraft.go:125-198 | a handshake that fits is read back field for field, raw being its packet, whatever follows |
| Hardlinks.Extractor.Finish | internal/fileops/archive.go:444-477 | the worklist, filtered in its own array, terminates with the tree and the answer of its specification |
| Hardlinks.Extractor.FilterLinks | internal/fileops/archive.go:446-476 | the in-place filter keeps exactly the pending links, in order, over what was read already |
| Hardlinks.FinishesExactly | internal/fileops/archive.go:444-477 | with targets regular where they are there and no symlink above names and targets, it succeeds exactly when no link is its own, no link's name is above another's, beneath a file or that of a directory with something in it, and every target is in each set that holds the files and is closed under the links, so whatever their order |
| Hardlinks.LinksOne | internal/fileops/archive.go:295-304 | one link waits, is refused, or makes the directories above its name and the target's file at it, all else as it was |
| Hardlinks.NamesAboveNames | internal/fileops/archive.go:295-304 | links whose names are above one another fail though all targets are there |
| Hardlinks.ThroughSymlink | internal/fileops/archive.go:444-477 | a target met through a symlink is linked though no link has its name |
| Hardlinks.PassKeeps | internal/fileops/archive.go:446-476 | a pass that does not fail loses no link: each is pending or made, nothing that was there goes, and no file comes but through the links |
| Hardlinks.LinksAreTheirTargets | internal/fileops/archive.go:460-470 | with new and unique names, each link ends as the same file as its target and all that was there stays |
| Listing.List | internal/fileops/fileops.go:496-524 | the loop prints a record for each entry that can be read |
| Listing.ParseListing | internal/api/files.go:289-307 | the loop appends an entry for each record that has four parts and a name |
| Listing.ParserUndoesPrinter | internal/api/files.go:289-307 | for every sequence of entries with non-empty NUL-free names, tabs and line breaks included, the parser gives back what the printer was given |
| Listing.ListedEntries | internal/fileops/fileops.go:506-522 | printed and parsed, a directory shows exactly its entries that answered, in order: by what Stat says when it answers, so a symlink as what it leads to, or else by what Lstat says of the entry itself |
| Listing.RecordText | internal/fileops/fileops.go:513-519 | a record is d and 0, or f and the size, then the time and the name, with tabs between and a NUL after it |
| Listing.ParsesFindRecord | internal/api/files.go:298-303 | a record with a fraction in its time and a size for a directory is read as the helper's own |
| Decimal.ParsePrint | internal/api/files.go:296-300 | a 64-bit number printed is read back |
| Decimal.PrintedDigits | internal/fileops/fileops.go:517 | a number is printed in base ten, with a minus sign before a negative one |
| PortsText.SanitizedText | internal/api/handlers.go:1653-1717 | told on the text: a list is taken, and given back as out, exactly when each entry of out has the port, the protocol asked for (tcp or udp in any case and blanks, TCP when blank), the trimmed name or one made of the port, and of the protocol where the port is shared, and the primary mark, the first entry's when none has it; and the entries of out are in range, with names Kubernetes takes, no pair and no name twice, and one primary at most |
| Ports.SanitizePorts | internal/api/handlers.go:1653-1717 | a list is taken exactly when ranges, protocols, pairs, names and primaries are in order, with the normalised list, and each refusal is true of it |
| Ports.SanitizedIsSound | internal/api/handlers.go:1653-1717 | what is taken keeps its order, has unique pairs and valid unique names, and exactly one primary when not empty |
| Ports.SanitizeTwice | internal/api/handlers.go:1653-1717 | a second run changes nothing |
| Ports.BlankNamesAreAccepted | internal/api/handlers.go:1653-1717 | with all names blank, distinct pairs in range and at most one primary, it never refuses |
| Ignore.BracketNegation | internal/backup/ignore.go:117-142 | the index loop rewrites as the scan by characters does |
| Ignore.Wildcards | internal/backup/ignore.go:102-113 | the stars no backslash escapes are counted |
| Ignore.ParseRewritten | internal/backup/ignore.go:114-142 | rewritten, a component means to Go what it means to the list, and a well-formed one ends outside any set |
| Ignore.ResticExcludes | internal/backup/ignore.go:54-99 | the loop accepts, refuses and writes what its specification says |
| Ignore.ExcludesWhatTheListDoes | internal/backup/ignore.go:35-99 | for every list taken, the exclude file leaves out under the root what the list does by its rules, path by path, and nothing outside the root |
| IgnoreText.NamesLeaveOut | internal/backup/ignore.go:54-99 | told on the text, for plain names c and d: the list /c leaves out exactly the paths that begin with c under the root; c those with c anywhere under it; c/ the same; c/d those that begin with both; and each line of the exclude file, as text |
| IgnoreText.CommentsLeaveOutNothing | internal/backup/ignore.go:59-84 | a line that begins with #, and a slash alone, leave out nothing |
| IgnoreText.TakenBack | internal/backup/ignore.go:66-99 | a name left out everywhere and taken back at the top is left out everywhere else; taken back everywhere, nowhere |
| IgnoreText.ListsMean | internal/backup/ignore.go:54-99 | a list whose lines are comments, blanks, slashes and plain names, taken back or not, in any blanks and slashes, is taken exactly up to 32 KiB and 256 patterns, and leaves out what its last line about the path or a directory above it says, under the root alone |
| IgnoreText.FileOfNames | internal/backup/ignore.go:85-98 | the exclude file of such a list, line by line: the root, **/ when the name is not anchored, the names, ! in front when taken back |
| IgnoreText.StarsAreUnescaped | internal/backup/ignore.go:102-113 | the stars counted are those after an even number of backslashes |
| Waker.TriggersPost | cmd/activator/main.go:159-186 | on time, a trigger posts exactly when there was no post in the last fifteen seconds but for one that failed and was cleared |
| Waker.OnePostAtATime | cmd/activator/main.go:159-186 | if each trigger is done within the cooldown of its timestamp, one post at most is in flight, and two in a row start closer than the cooldown only when the first failed |
| Waker.LatenessDecides | cmd/activator/main.go:159-186 | in a run without such a delay, a cooldown passes over a trigger at work exactly when the next trigger is at work beside it, and exactly when two posts can be made at once and start together though the first did not fail |
| Waker.LateClear | cmd/activator/main.go:167-186 | a failure cleared later than the cooldown lets two posts be in flight |

## How the models are set up

- The store's contracts are those of `internal/store`: claims, completions and
  cancellations compare the phase, lists of a phase come oldest first,
  `MarkBackupDeleting` and `DeleteBackup` go by id alone. Reads of the busy servers
  succeed.
- "Someone else deletes a Job" is a step of the backup model, except for a Job its
  running operation has not recorded the UID of; the theorems say for which
  operations it happened.
- One leader runs the backup manager; it may crash and start again anywhere.
- Text is a sequence of Unicode scalar values. Files with invalid UTF-8 are not
  part of the config, listing and ignore models; the byte models are `Console`,
  `Minecraft` and `Uploads`.
- Values after `coerce` are a type parameter of the structured documents.
- An upload's piece carries the file's own bytes from its offset on. A helper's open
  and the check of the size are one step, as are the extraction of an archive and the
  removal of its temporary file; its writes are any number of steps.
- A walk of a path that leaves the volume has escaped, even if it would come back. Of
  an absolute link target, the way from the top of the host to the volume's mount is
  known, and nothing else above the volume.
- The number of symlinks the file helper's root follows in one path is a parameter of
  the hardlink model.
- An operation is asked for on one server, which is on record for good; a Job works for
  that server, whether or not its row is still there.
- Clocks are numbers that steps move forward; the network, the context's
  cancellation and the outcome of deliveries are parameters of a pass.

## Left out

- StructuredTables.Table.SetPath: descends by a call for each component where the source's loop moves a pointer; the tables changed and their order are the same.
- Resolve.ResolveKeepsMeaning: the count of forty links is exact for links of leading dot-dots then plain names; for other faithful links (`ResolveExact.AnswersRight`) a name may be refused for its links after forty rewritten names, however many links its walk goes through.
- Hardlinks.FinishesExactly: symlinks above names and targets are in the model (`Hardlinks.Walk`) but outside this statement, since a link may replace the symlink others go through, and then their order decides.
- Ignore.ExcludesWhatTheListDoes: restic's matcher is not part of this model beyond the reading both sides share: components matched one by one, `**` for any number of directories and, last, for all inside one; its own cleaning of dots and repeated slashes and of spaces at the ends of a line is left out.
- IgnoreText.ListsMean: the names of these lists hold no pattern characters; what patterns match is stated through `Ignore.ParseRewritten` and `Ignore.ExcludesWhatTheListDoes`.
- Properties.ApplyLineKV: the separator is the properties format's `=`; the spaced form of `formatKV` is the same loop with another printed line.
- Uploads.ArrivedIsAPrefix: the collector of expired uploads works without the lock and is not part of the model. After a lock taken beside another at work the statement says nothing more of that run.
- UdpProxy.CountIsEntries: a shutdown is modelled as removals of single entries, each under the mutex; last-seen times, pongs and the player gate do not touch the sums.
- Notify.CursorPassesHandled: cursor writes succeed; what a delivery's body says and the server's name in it are left out.
- Backup manager: restic's scripts, Secrets, exclusions, database parameters, adoption of Jobs that still expire, clusters, announcements, retention's choice of backups (any finished ones may be queued); purge Jobs come and expire, and nothing more is said of them.
- The transfer manager, the scheduler, the reconciler: only a transfer's hold on a server is modelled.
- `applyFile` in the config patcher matches by prefix and is deliberately approximate.
- XML and YAML, `coerce`'s number formats, how files are written and renamed by the patcher.
- HTTP handlers, JSON, auditing, Kubernetes clients, mail, Discord and webhook bodies, object storage.
- Archive formats and metadata, the copy and move operations of the file helper.
- Passwords, tokens, permissions.
