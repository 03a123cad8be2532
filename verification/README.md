# Verified model of the BeeBa backend

BeeBa is a catalogue of Basis content packages (`.bee` files) and game servers. Owners upload
packages into a quarantine bucket, workers scan and promote them, admins moderate them, and
the public sees, searches and downloads what has been published. This project models the
parts of that system whose correctness does not follow from reading one function, and proves
what they promise over every run.

`dafny verify dfyconfig.toml` checks everything.

## The modules

| module | what it models |
|---|---|
| `Jobs`, `JobQueue` | rows of `worker_jobs`, the queue as a step machine, and the repository's statements on a table |
| `Publication`, `PublicationProofs` | the tables behind publication, each SQL transaction as a function, and what each keeps |
| `ContentStore` | the same transactions statement by statement, with rollback, proved equal to those functions |
| `Protocol`, `ProtocolProofs` | uploads, scan workers, the reconciling worker, admins, owners, buckets and index, interleaved step by step, with the inductive invariant |
| `Worker` | the worker's sequential code, proved to be a run of that machine |
| `PublicationTheorems`, `PublicationSteps` | the theorems about reachable states, and about what no step can undo |
| `PublicationColumns`, `ScanVerdicts` | who may change which column, and to what, over every step; where a recorded verdict comes from, over every run |
| `SearchSync`, `SearchDisciplines` | which claims of search jobs keep the search index right, exactly; two simple disciplines and what they are worth; the two ways it goes wrong |
| `Quota`, `QuotaRoom` | an owner's storage quota: advisory lock, read, check and commit as separate steps; which re-encodings keep the owner within it, exactly |
| `Paging` | keyset pagination with the two client loops, over a table that changes between requests |
| `Bytes`, `BeePackage`, `BeeCipher` | the `.bee` frame, its connector's sections, and the encryption around the connector |
| `Basics`, `Wrappers` | a power function, one counting fact, and the option and result types |
| `Text`, `Endpoint`, `Probe` | connection strings and slugs; the LiteNetLib query and response |
| `ServerListing`, `ServerStore` | server listings, their checks and admin decisions; the repository's methods |
| `Sessions`, `RateLimit`, `Social` | refresh-token rotation; the Redis and e-mail limits; like and comment counters |
| `ByteRange`, `RangeGrammar` | Range headers, what they select, and the language of headers that is accepted |

The central result is about publication. No single guard makes it safe: the `WHERE` clauses,
the job lifecycle and the order of copy, commit and remove only work together. `ProtocolProofs.Inv`
is the invariant that says how, `ApplyKeeps` shows that every step of every process keeps it, and
the theorems follow for any sequence of actions, crashes included.

Where a tempting claim is false, the project says exactly when it holds:

- A connection string reads back as the endpoint it was printed from exactly when the host does
  not begin with `[` and does not combine `:` with a `]` that is not its last character
  (`Endpoint.RoundTripIff`); the parser accepts hosts outside that set (`AcceptedButNotPrintable`).
- The queue lets workers claim the search jobs of an item in any order and side by side, and then the
  index need not converge. `SearchSync.ClaimSafeIff` gives the exact condition on a claim: it is safe if
  another unclaimed job of the item stays behind, or if everything still to be written for the item, by
  this job or by a worker already on it, is what the public may see. Runs of safe claims converge
  (`SafeRunsMeetTheirAim`, `SearchDisciplines.SafeClaimsConverge`); one unsafe claim can leave the index
  wrong with no further claim (`UnsafeClaimStrays`). There are two halves. Dropping "nobody else on the item
  holds an outdated document" leaves a hidden item in the index (`SearchDisciplines.OverlapLeavesOrphan`).
  Dropping "no outdated delete comes last" removes a visible item (`OvertakingLosesItem`). Claiming the jobs
  of an item in order is sufficient (`InOrderIsSafe`, `IndexConverges`), and more than is needed.
- A publicly listed server need not have answered a check at the address that is shown. Throughout a run
  every published or offline-but-shown address has answered or was restored by an admin if and only if
  no check commits in one of two ways (`ServerListing.AlwaysBackedIff`): online, on a listing that moved
  while it was being probed (`StaleCheckPublishesNewEndpoint`), or offline, on a listing that had been
  published before it moved (`OfflineCheckShowsMovedEndpoint`). A restore publishes a listing with no
  `published_at` exactly when it had none and is not deleted (`RestoreWithoutTimeIff`). An admin retry
  keeps one live check per server exactly when no other is live (`RetryKeepsOneIff`).
- A rate-limited key does not recover by itself when its EXPIRE was lost: once the limit is reached, and
  as long as no EXPIRE arrives, all later requests are refused for ever exactly when one is still owed
  (`RateLimit.RefusedForEverIff`).
- A token made before a confirmed password change can still be accepted after it if and only if it
  belongs to a login that was verified before the change and has no session yet
  (`Sessions.OldTokenSurvivesIff`).
- Image re-encoding checks no quota. A re-encoding keeps the owner within the limit, whatever other
  transactions do next, if and only if the usage, the bytes promised to a transaction that has passed its
  check, and the change in size together fit (`QuotaRoom.ReencodingFitsIff`). Free space alone does not
  decide it (`FreeSpaceIsNotEnough`). Nothing but a re-encoding that does not fit ever uses up the room
  (`AlwaysRoomIff`).
- A text of more than 65534 bytes does not survive `appendLiteNetString` (`Probe.TextRoundTripIff`).
- The Redis limiter admits up to `2 * limit - 1` requests in one window's length, one less than the
  usual estimate, and that many are reached (`RateLimit.FixedWindowBound`, `BoundIsMet`).

## Assumptions

- A transaction is one atomic step and a failed commit is a rollback; `NOT EXISTS` and `COUNT` inside a
  transaction see what that transaction's commit will see.
- Generated ids, storage keys, tokens and nonces are fresh. The private bucket is not the quarantine
  bucket. Tables start empty; `max_attempts` is at least 1.
- Only uploads insert content files, one per item, so "the latest file of an item" is a field of the item.
- Clocks may show any time, except that the two rate limits need time that does not run backwards.

## Model

| member | source | states |
|---|---|---|
| `Jobs.Backoff` | Backend/internal/repository/postgres/jobs.go:836-844 | the delay is between 1 and 32 minutes, doubles with each of the first attempts and stays at 32 minutes from the sixth |
| `JobQueue.RunningJobHasOneHolder` | Backend/internal/repository/postgres/jobs.go:27-72 | in every run, a running job that was not abandoned is held by exactly one worker, whose attempt counters equal the row |
| `JobQueue.RetryBudget` | Backend/internal/repository/postgres/jobs.go:756-834 | at most `max_attempts` claims since insertion or the last admin retry; a pending job has attempts left; a job out of attempts ends as soon as its worker reports; a terminal e-mail job has no token |
| `JobQueue.AbandonedStaysRunning` | Backend/internal/repository/postgres/jobs.go:27-72 | once a worker is lost its job stays running for ever: there is no lock expiry |
| `JobQueue.FailedJobWaits` | Backend/internal/repository/postgres/jobs.go:778-812 | after a failure with attempts left, an idle worker's claim of the job takes effect if and only if the back-off has passed since the report |
| `JobQueue.DeadJobIsNotClaimed` | Backend/internal/repository/postgres/jobs.go:778-812 | after a failure with none left, no claim of it takes effect at any time |
| `JobQueue.RetriedJobIsClaimed` | Backend/internal/repository/postgres/jobs.go:158-247 | after an admin retry, a claim takes effect if and only if it is not earlier than the retry |
| `JobQueue.NewJobIsClaimed` | Backend/internal/repository/postgres/jobs.go:27-41 | a new job can be claimed at any time, and from its own queue only |
| `JobQueue.LockedWhileRunning` | Backend/internal/repository/postgres/jobs.go:756-834 | in every run a job not abandoned is locked exactly while it is running |
| `JobQueue.StepKeepsInv` | Backend/internal/repository/postgres/jobs.go:756-812 | every queue event, claims, reports, lost reports, cancellations and retries, keeps lease and row in step |
| `JobQueue.JobTable.Claim` | Backend/internal/repository/postgres/jobs.go:27-72 | the claimed job is the oldest row of its queue that is pending, not locked, and without a retry time or past it; it alone changes; nothing is claimed only if there is no such row |
| `JobQueue.JobTable.MarkSucceeded` | Backend/internal/repository/postgres/jobs.go:756-776 | the row becomes succeeded and unlocked, an e-mail job loses its token, no other row changes, and a missing row is reported |
| `JobQueue.JobTable.MarkFailed` | Backend/internal/repository/postgres/jobs.go:778-812 | the row becomes pending with a retry time, or dead without one, as the worker's counters decide, and is due again from the end of the back-off, or never |
| `JobQueue.JobTable.RetryAdminJob` | Backend/internal/repository/postgres/jobs.go:158-247 | only a failed or dead job is reset to pending with no attempts |
| `ContentStore.Store.CreateUpload` | Backend/internal/repository/postgres/uploads.go:28-155 | item, file and scan job appear together, or nothing does when the author already has the same bytes in an item that is not deleted |
| `ContentStore.Store.CompleteFileScan` | Backend/internal/repository/postgres/jobs.go:425-467 | verdict, item status and job end together or not at all |
| `ContentStore.Tx.PublishClean` | Backend/internal/repository/postgres/jobs.go:532-599 | publishes only a clean file of that item while it is pending and not deleted, and announces it to the search index |
| `ContentStore.Tx.MarkScanSucceeded` | Backend/internal/repository/postgres/jobs.go:814-834 | a missing job row fails the transaction |
| `ContentStore.Store.PublishCleanContent` | Backend/internal/repository/postgres/jobs.go:469-484 | the shared publication, committed or rolled back as a whole |
| `ContentStore.Store.CompleteFileScanAndPublish` | Backend/internal/repository/postgres/jobs.go:486-530 | verdict, new location, publication and job end together; any missing row rolls all of it back |
| `ContentStore.Store.RescanAdminFile` | Backend/internal/repository/postgres/admin_files.go:114-195 | reopens only failed, suspicious or infected files, with a new job that describes the row |
| `ContentStore.Store.Approve` | Backend/internal/repository/postgres/moderation.go:158-239 | publishes a clean file's item that awaits moderation, at the location of the candidate it was given |
| `ContentStore.Store.ReviewContent` | Backend/internal/repository/postgres/moderation.go:671-819 | reject, hide and restore change exactly the columns and statuses they are allowed to, a restore only with a clean file, and announce the change |
| `ContentStore.Store.UpdateOwned` | Backend/internal/repository/postgres/content.go:641-767 | the transaction whose columns `PublicationColumns.OwnerEditColumns` gives, committed or rolled back as a whole |
| `ContentStore.Store.DeleteOwned` | Backend/internal/repository/postgres/content.go:863-911 | only the author deletes, once; a visible item is announced as gone |
| `PublicationProofs.CreateUploadKeeps` | Backend/internal/repository/postgres/uploads.go:28-155 | an upload keeps the table invariant: placement, one open scan per waiting file, coherent statuses |
| `PublicationProofs.CompleteFileScanKeeps` | Backend/internal/repository/postgres/jobs.go:425-467 | closing an unfinished scan finds all its rows and keeps the table invariant |
| `PublicationProofs.CompleteFileScanAndPublishKeeps` | Backend/internal/repository/postgres/jobs.go:486-530 | publishing from an unfinished scan keeps the table invariant |
| `PublicationProofs.RescanKeeps` | Backend/internal/repository/postgres/admin_files.go:121-157 | reopening a scan keeps the table invariant: the file is waiting again and has exactly one open job |
| `PublicationProofs.ApproveKeeps` | Backend/internal/repository/postgres/moderation.go:158-239 | an approval with the file's own location keeps the table invariant although it does not look at `deleted_at` |
| `PublicationProofs.ReviewKeeps` | Backend/internal/repository/postgres/moderation.go:671-745 | every review keeps the table invariant |
| `PublicationProofs.UpdateOwnedKeeps` | Backend/internal/repository/postgres/content.go:641-783 | every owner edit keeps the table invariant |
| `PublicationProofs.DeleteOwnedKeeps` | Backend/internal/repository/postgres/content.go:863-911 | a deletion keeps the table invariant |
| `PublicationProofs.TwoFieldTestIsVisibility` | Backend/internal/repository/postgres/content.go:712-713 | the status-and-visibility test used by owner transactions decides exactly the five-field visibility test |
| `PublicationProofs.UpdateOwnedAnnounces` | Backend/internal/repository/postgres/content.go:702-755 | an owner edit that changes what the public sees enqueues a search job for it, and deletes from the index only what is no longer visible |
| `PublicationProofs.DeleteOwnedAnnounces` | Backend/internal/repository/postgres/content.go:863-911 | the same for a deletion |
| `PublicationProofs.ReviewAnnounces` | Backend/internal/repository/postgres/moderation.go:671-819 | the same for reject, hide and restore |
| `ProtocolProofs.ApplyKeeps` | Backend/internal/app/worker.go:446-589 | every step of every process keeps the protocol invariant: rows name stored objects, leases are the locked rows, read rows are current, retired keys are unused |
| `ProtocolProofs.InsertUploadKeeps` | Backend/internal/http/handlers/upload/handler.go:51-167 | the rows are inserted for an object that is stored; a failed insert leaves only an object no row refers to |
| `ProtocolProofs.CopyOutKeeps` | Backend/internal/app/worker.go:758-775 | a copy out of quarantine, even one that reports an error, overwrites nothing that is in use |
| `ProtocolProofs.PublishKeeps` | Backend/internal/app/worker.go:776-786 | the publishing transaction moves the row to an object that is there, whichever of the three publishers runs it |
| `ProtocolProofs.UndoKeeps` | Backend/internal/app/worker.go:776-781 | removing the copy after a failed publication harms no row and no other publisher |
| `ProtocolProofs.SweepKeeps` | Backend/internal/app/worker.go:782-786 | removing the quarantine object after publication harms no row |
| `ProtocolProofs.OneHolder` | Backend/internal/repository/postgres/jobs.go:27-72 | two processes never hold scans of the same file |
| `ProtocolProofs.RunKeeps` | Backend/internal/app/worker.go:218-239 | the protocol invariant holds in every reachable state |
| `PublicationTheorems.EveryRowIsStored` | Backend/internal/app/worker.go:758-816 | in every run, under any interleaving and any crashes, every file row names a stored object with the recorded content |
| `PublicationTheorems.PublishedIsDownloadable` | Backend/internal/repository/postgres/downloads.go:70-114 | the download query finds exactly the published items, and the object of each is there |
| `PublicationTheorems.CleanupsMissEveryRow` | Backend/internal/http/handlers/admin/moderation.go:107-155 | no removal, after a failed upload, a failed publication or a successful one, aims at an object that a row refers to |
| `PublicationTheorems.CleanupRemoves` | Backend/internal/app/worker.go:776-786 | a removal that succeeds takes away its own object and nothing else |
| `PublicationTheorems.AwaitingIffOneOpenJob` | Backend/internal/repository/postgres/jobs.go:425-599 | a file awaits its scan exactly when one scan job for it has not succeeded, and that job's payload equals the row |
| `PublicationTheorems.CleanIsPromoted` | Backend/internal/app/worker.go:788-816 | a clean file is in the private bucket under the key of its item and file, any other in quarantine, so neither the reconciling worker nor an admin ever copies |
| `PublicationTheorems.ScanChecksNeverFail` | Backend/internal/app/worker.go:459-492 | the payload-mismatch and hash-mismatch branches of the scan are unreachable |
| `PublicationTheorems.StatusesAreCoherent` | Backend/internal/repository/postgres/moderation.go:671-745 | `published_at` is set iff published or hidden, `hidden_at` iff hidden, a deleted item is in one of three statuses, and published implies a clean file |
| `PublicationColumns.StepColumns` | Backend/internal/repository/postgres/content.go:641-783 | through every step of every process, text and visibility change only by the author's own edit and to what it gives; each status is entered only by its own action; files become clean, or get another verdict, only from a process that brings it; first publication and hiding times are kept |
| `PublicationColumns.OwnerEditColumns` | Backend/internal/repository/postgres/content.go:686-767 | after an owner's edit, each of title, description, NSFW mark, tags and visibility is the given value, or else the old one; a reviewed item whose text was edited awaits moderation; nothing else changes |
| `PublicationColumns.OwnerEditAccepted` | Backend/internal/repository/postgres/content.go:641-685 | an edit succeeds exactly for the author of an item not deleted, with a clean file if it needs a review |
| `PublicationColumns.OwnerEditEnqueues` | Backend/internal/repository/postgres/content.go:702-755 | an edit enqueues an upsert if the public sees the item then, a delete if it did before, and nothing otherwise |
| `PublicationColumns.PrivateUntilMadePublic` | Backend/internal/repository/postgres/jobs.go:551-556 | over any run, a private item stays private and unseen until its owner makes it public |
| `PublicationColumns.TextUntilEdited` | Backend/internal/repository/postgres/content.go:686-693 | over any run, text and visibility are those of the upload until the owner edits the item |
| `PublicationColumns.UploadedAs` | Backend/internal/repository/postgres/uploads.go:28-155 | a new item has the author, text and visibility of its upload, waits for its scan, and its file has the stored bytes |
| `PublicationColumns.UploadAccepted` | Backend/internal/repository/postgres/uploads.go:28-155 | an upload with fresh ids is refused exactly when an item of its author that was not deleted has the same bytes; otherwise one scan job describes it |
| `PublicationColumns.NoTwoCopies` | Backend/internal/repository/postgres/uploads.go:28-155 | in every run, no author has the same bytes in two items that are not deleted |
| `PublicationColumns.ReviewAccepted` | Backend/internal/repository/postgres/moderation.go:671-745 | which statuses can be rejected, hidden and restored, where that leads, and which search job it enqueues |
| `PublicationColumns.DeleteAccepted` | Backend/internal/repository/postgres/content.go:863-911 | only the author deletes, once; a delete job exactly for a visible item |
| `PublicationColumns.RescanAccepted` | Backend/internal/repository/postgres/admin_files.go:114-195 | exactly failed, suspicious and infected files are reopened, with one new job that describes them |
| `PublicationColumns.PublicationAccepted` | Backend/internal/repository/postgres/jobs.go:532-599 | exactly when each of the three publishers succeeds, and that it then announces the item and ends the scan job if there is one |
| `PublicationColumns.CandidateIffWaiting` | Backend/internal/repository/postgres/jobs.go:337-369 | the reconciling worker takes up exactly the items awaiting moderation with a clean file, the admin also approved ones |
| `ScanVerdicts.VerdictIsLastFinding` | Backend/internal/app/worker.go:446-589 | in every run, a file's verdict is what its last inspection found: clean, infected, malformed, or not scanned by the antivirus |
| `ScanVerdicts.FindingIsBrought` | Backend/internal/app/worker.go:493-589 | every inspection that could read the file goes on to record the verdict of what it found |
| `ScanVerdicts.FindingWasMade` | Backend/internal/app/worker.go:446-492 | that finding was made by an action of the run, by the holder of the file's scan on the row it had loaded |
| `ScanVerdicts.PublishedWasFoundClean` | Backend/internal/app/worker.go:446-589 | in every run, a published item's file was found clean by its last inspection |
| `PublicationSteps.StepMoves` | Backend/internal/repository/postgres/content.go:641-783 | every step keeps identity, deletion and clean files, changes no published text in place, and announces changes of visibility |
| `PublicationSteps.CleanIsFinal` | Backend/internal/repository/postgres/admin_files.go:114-195 | the row of a clean file never changes again, over any run |
| `PublicationSteps.DeletedIsGone` | Backend/internal/repository/postgres/content.go:863-911 | `deleted_at` is never cleared, and a deleted item is never published, visible or downloadable again, although its status may change |
| `PublicationSteps.PublishedTextIsStable` | Backend/internal/repository/postgres/content.go:769-783 | no step replaces the text of an item while it stays published |
| `SearchSync.ApplySound` | Backend/internal/app/worker.go:911-955 | every step of every process keeps every item on its course to the right index entry, as long as claims are safe |
| `SearchSync.SafeRunsMeetTheirAim` | Backend/internal/app/worker.go:911-955 | in every run of safe claims the index fits what the public may see of every item without unfinished jobs, with read, index write and report as separate steps |
| `SearchSync.UnsafeClaimStrays` | Backend/internal/repository/postgres/jobs.go:27-72 | after an unsafe claim the workers can finish, with no further claim, with no job of the item left and a wrong index |
| `SearchSync.ClaimSafeIff` | Backend/internal/repository/postgres/jobs.go:27-72 | from any sound state, for either aim, the right document or merely no orphan, a claim is safe if and only if the index meets it after every further run of safe claims |
| `SearchDisciplines.NoOrphansWhileAlone` | Backend/internal/app/worker.go:911-955 | with one worker per item, every indexed item that the public may not see has an unfinished search job |
| `SearchDisciplines.InOrderIsSafe` | Backend/internal/app/worker.go:911-955 | a job whose earlier jobs of the item have all succeeded is safe to claim, in every state such claims lead to |
| `SearchDisciplines.OrderedRuns` | Backend/internal/app/worker.go:911-955 | a run that claims in order makes only safe claims, and never ends an item on an outdated delete |
| `SearchDisciplines.SafeClaimsConverge` | Backend/internal/repository/postgres/jobs.go:672-754 | after safe claims, once all search jobs have succeeded the index holds exactly the published public items, each with its own title, description, tags and NSFW mark |
| `SearchDisciplines.IndexConverges` | Backend/internal/repository/postgres/jobs.go:672-754 | in particular when the jobs of each item are claimed in order |
| `SearchDisciplines.OverlapLeavesOrphan` | Backend/internal/app/worker.go:921-941 | from any state with a visible item, two overlapping workers can leave it in the index after it was hidden and both jobs succeeded |
| `SearchDisciplines.OvertakingLosesItem` | Backend/internal/app/worker.go:921-941 | from any state with a visible item, a delete job run after a later upsert removes an item that the public sees |
| `Worker.Platform.LoadForScan` | Backend/internal/app/worker.go:455-465 | a missing row is an error, a row whose item or location differs from the payload closes the scan as suspicious, any other is read; one load is traced |
| `Worker.Platform.InspectObject` | Backend/internal/app/worker.go:467-543 | no verdict exactly for an unreadable object, suspicious for other bytes than recorded, and otherwise the verdict whose only cause is what the environment found; that inspection is traced |
| `Worker.Platform.ProcessFileScan` | Backend/internal/app/worker.go:446-589 | the sequential scan is a run of the protocol made of its own steps with the environment's choices, ends with its job finished or due for MarkFailed, gives a verdict to its own file only, and clean only if it was found clean |
| `Worker.Platform.Promote` | Backend/internal/app/worker.go:758-816 | copy, transaction and clean-up, in that order and as far as each is reached, are a run of the protocol for each of the three publishers |
| `Worker.Platform.AutoPublishCleanFile` | Backend/internal/app/worker.go:758-786 | only the scanned file gets a verdict, clean, and only if no error is returned |
| `Worker.Platform.CopyFromQuarantine` | Backend/internal/app/worker.go:763-774 | an object outside quarantine is not copied; a copy goes to the item's own key |
| `Worker.Platform.RunTransaction` | Backend/internal/app/worker.go:776-781 | the tables become what the publisher's transaction makes of them, or stay; the outcome decides between removing the original and removing the copy |
| `Worker.Platform.RemoveLeftover` | Backend/internal/http/handlers/admin/moderation.go:134-155 | exactly one of the two objects is removed after a copy |
| `Worker.Platform.ScanOnce` | Backend/internal/app/worker.go:218-239 | one pass claims, processes and reports, and leaves nothing in flight |
| `Worker.Platform.SyncDocument` | Backend/internal/app/worker.go:911-955 | reading, indexing and, if that is acknowledged, marking are the protocol's search steps in this order |
| `Quota.OwnerStaysWithinQuota` | Backend/internal/repository/postgres/storage_usage.go:47-69 | for every interleaving of uploads, avatar replacements, deletions and re-encodings, usage that starts within a positive limit never exceeds the limit plus the bytes re-encoding added |
| `Quota.CommitUsage` | Backend/internal/repository/postgres/media.go:37-94 | a commit adds at most the checked delta, although it may sweep more avatars than were counted |
| `Quota.LockIffAdds` | Backend/internal/repository/postgres/storage_usage.go:54-69 | a transaction takes the advisory lock exactly when it adds bytes |
| `Quota.ReadDecides` | Backend/internal/repository/postgres/storage_usage.go:54-69 | under the lock it is cleared exactly when usage and added bytes fit the limit, or there is none |
| `Quota.CommitKeeps` | Backend/internal/repository/postgres/media.go:30-103 | a commit, with or without the advisory lock, keeps the bound that other transactions rely on |
| `Quota.ReencodeKeeps` | Backend/internal/repository/postgres/media.go:585-611 | re-encoding shifts usage by no more than the growth it records, and never touches a locked avatar |
| `Quota.DeletedImageFrees` | Backend/internal/repository/postgres/storage_usage.go:24-30 | deleting an image frees exactly its bytes |
| `Quota.ReencodingCanExceed` | Backend/internal/repository/postgres/media.go:585-611 | an instance that does not fit, for every limit: one re-encoding exceeds a full quota by any number of bytes |
| `QuotaRoom.StepRoomIff` | Backend/internal/repository/postgres/media.go:30-183 | with every promise counted, each step but a re-encoding leaves the owner within the limit, and a re-encoding does exactly when it fits |
| `QuotaRoom.AlwaysRoomIff` | Backend/internal/repository/postgres/storage_usage.go:47-69 | throughout a run usage and promises are within the limit if and only if every re-encoding of the run fits |
| `QuotaRoom.OwnerStaysWithinLimit` | Backend/internal/repository/postgres/storage_usage.go:47-69 | an owner who starts within a positive limit stays within it in every run whose re-encodings fit |
| `QuotaRoom.ReencodingFitsIff` | Backend/internal/repository/postgres/media.go:585-611 | usage, promised bytes and change fit before a re-encoding if and only if usage stays within the limit in every run after it that re-encodes nothing more |
| `QuotaRoom.PromiseComesDue` | Backend/internal/repository/postgres/storage_usage.go:54-69 | a transaction that has passed its check can add every byte it was granted |
| `QuotaRoom.FreeSpaceIsNotEnough` | Backend/internal/repository/postgres/media.go:585-611 | while a promise is open, a re-encoding that just fills the limit exceeds it with the next commit |
| `Quota.OwnerFiles.OwnerStorageUsage` | Backend/internal/repository/postgres/storage_usage.go:16-45 | the sum of the sizes of the live rows |
| `Quota.OwnerFiles.EnsureOwnerStorageQuota` | Backend/internal/repository/postgres/storage_usage.go:54-69 | accepts exactly what fits, anything that adds nothing, and everything without a positive limit |
| `Quota.OwnerFiles.ReplacedBytes` | Backend/internal/repository/postgres/media.go:37-44 | the loop adds up exactly the live avatars |
| `Quota.OwnerFiles.CreateUserAvatar` | Backend/internal/repository/postgres/media.go:30-103 | the new avatar becomes the only live one exactly when the replacement fits |
| `Quota.OwnerFiles.Create` | Backend/internal/repository/postgres/media.go:105-183 | a row is added exactly when it fits, and usage stays within the limit |
| `Paging.ListOwned` | Backend/internal/repository/postgres/content.go:467-639 | a page is the next matching rows, newest first and the greater id first among equals; a cursor is issued exactly when more rows match than the page holds |
| `Paging.ListOwnedContent` | Frontend/src/lib/api/uploads.ts:36-64 | over a table that changes between requests, the loop ends, never reports a loop, delivers in strict order without repetition, and delivers a key exactly when it was present at the request that settled it |
| `Paging.DeliveredExactlyOnce` | Frontend/src/lib/api/uploads.ts:36-64 | a row present throughout is delivered once, a row never present is not delivered |
| `Paging.CollectContentSitemapItems` | Frontend/src/lib/seo/content-sitemap.ts:9-37 | the bounded loop ends with at most the maximum number of items, in order, and misses nothing above the last one it kept |
| `BeePackage.ReadRemoteSDKBEE` | Backend/internal/security/basisbee/validator.go:189-240 | accepts exactly the streams made of an 8-byte little-endian length, that many connector bytes and the sections, within the size limits, and reports their sizes and the digest of the whole |
| `BeePackage.FrameIsUnique` | Backend/internal/security/basisbee/validator.go:197-217 | a stream has at most one frame, fixed by its header |
| `BeePackage.HeaderBelow64Bits` | Backend/internal/security/basisbee/validator.go:197-200 | a positive int64 length is the unsigned number that was written |
| `BeePackage.CountingReader.Read` | Backend/internal/security/basisbee/validator.go:434-443 | the count and the hashed bytes are exactly what was read |
| `BeePackage.ValidateTags` | Backend/internal/security/basisbee/validator.go:390-410 | accepts exactly the tag lists within limits whose non-blank tags differ after trimming and lower-casing |
| `BeePackage.CheckSection` | Backend/internal/security/basisbee/validator.go:321-369 | one turn of the section loop keeps the sum and the seen platforms, rejects only what no extension can repair, and never meets the overflow guard |
| `BeePackage.ValidateConnector` | Backend/internal/security/basisbee/validator.go:283-374 | accepts exactly the connectors whose strings, sections, platforms and total length are in order; the int64 overflow error never occurs |
| `BeePackage.SectionsTile` | Backend/internal/security/basisbee/validator.go:319-373 | every byte of the section area belongs to exactly one declared section |
| `BeePackage.AtMostSixSections` | Backend/internal/security/basisbee/validator.go:347-353 | distinct allowed platforms leave room for at most six sections |
| `BeeCipher.Unpad` | Backend/internal/security/basisbee/validator.go:265-281 | accepts exactly the padded images of RFC 5652, section 6.3, and returns what was padded |
| `BeeCipher.ChainUndone` | Backend/internal/security/basisbee/validator.go:256-262 | CBC decryption (NIST SP 800-38A, section 6.2) inverts CBC encryption for any invertible block cipher |
| `BeeCipher.ChainRedone` | Backend/internal/security/basisbee/validator.go:256-262 | and the other way round, so no ciphertext has two plaintexts and each has one |
| `BeeCipher.XorBitsDiffer` | Backend/internal/security/basisbee/validator.go:261 | a digit of the combination is set if and only if the two digits there differ |
| `BeeCipher.DecryptedBlock` | Backend/internal/security/basisbee/validator.go:256-262 | every plaintext block is the bitwise difference of the decrypted block and the ciphertext block before it, or the IV (NIST SP 800-38A, section 6.2) |
| `BeeCipher.EncryptedBlock` | Backend/internal/security/basisbee/validator.go:256-262 | every ciphertext block is the cipher of the bitwise difference of the plaintext block and the ciphertext block before it, or the IV |
| `BeeCipher.Decrypt` | Backend/internal/security/basisbee/validator.go:242-263 | with a password, opens exactly the salt, IV and CBC envelopes, each to its own plaintext, and says which of the first three checks failed |
| `Endpoint.RoundTripIff` | Backend/internal/domain/servers/server.go:54-113 | for every normalised endpoint, parsing its printed form gives it back if and only if the host is printable |
| `Endpoint.ParsedIsNormal` | Backend/internal/domain/servers/server.go:66-138 | every accepted string parses to a normalised endpoint: trimmed lower-case host without URL syntax, port 1-65535, non-blank password |
| `Endpoint.ParseSettles` | Backend/internal/domain/servers/server.go:54-121 | every accepted string is a fixpoint after one print and parse, exactly when its host is printable |
| `Endpoint.AcceptedButNotPrintable` | Backend/internal/domain/servers/server.go:96-101 | the parser accepts `x:]y`, whose printed form does not read back |
| `Endpoint.ParseConnectionString` | Backend/internal/domain/servers/server.go:66-113 | the code with its reassigned host, port and password accepts what the model accepts, and only normalised endpoints |
| `Endpoint.DefaultPort` | Backend/internal/domain/servers/server.go:66-113 | without a ':' the port is 4296 and the host is all that stands before the '#', trimmed and in lower case |
| `Endpoint.ExplicitParts` | Backend/internal/domain/servers/server.go:66-121 | host, ':' and decimal port, with or without '#' and password, are read as just those parts |
| `Endpoint.BuilderKeepsWords` | Backend/internal/domain/servers/server.go:187-206 | a slug keeps the letters and digits of the name in order, joined by single hyphens |
| `Endpoint.TrimmedBuilder` | Backend/internal/domain/servers/server.go:187-202 | trimming every hyphen at both ends keeps the words, and empties only what has none |
| `Endpoint.Slug` | Backend/internal/domain/servers/server.go:187-206 | the slug is not empty, has no hyphen at either end nor two in a row, and spells the letters and digits of the lower-cased name; only a name without any gets the default |
| `Text.ParseInvertsDecimal` | Backend/internal/domain/servers/server.go:115-121 | printing a number in decimal and parsing it gives the number |
| `Probe.ResponseRoundTrip` | Backend/internal/servercheck/probe.go:101-149 | parsing inverts the encoding of every response with texts of at most 65534 bytes, whatever follows it |
| `Probe.AcceptedForm` | Backend/internal/servercheck/probe.go:101-163 | an accepted packet is a header, a response to this nonce, two encoded texts, and bytes nobody reads |
| `Probe.AcceptedLayout` | Backend/internal/servercheck/probe.go:101-149 | the magic, protocol version, nonce, players online and maximum of an accepted packet are the little-endian words at bytes 1, 5, 7, 9 and 11 |
| `Probe.TextRoundTripIff` | Backend/internal/servercheck/probe.go:196-239 | an encoded text reads back if and only if it has at most 65534 bytes |
| `Probe.ParseResponse` | Backend/internal/servercheck/probe.go:101-149 | the reader's fields in order, with the first error that applies |
| `Probe.PacketReader.LiteNetString` | Backend/internal/servercheck/probe.go:196-214 | the position stays within the packet on every input, and advances over exactly what was read |
| `Probe.PacketReader.Uint` | Backend/internal/servercheck/probe.go:178-194 | a truncated word is an error that moves nothing |
| `Probe.BuildQueryPacket` | Backend/internal/servercheck/probe.go:89-99 | 385 bytes: header, magic, version and nonce, then zeros |
| `ServerListing.ShownIsEarned` | Backend/internal/repository/postgres/servers.go:515-604 | in every run, a publicly listed server has answered a check at some address, or was restored by an admin |
| `ServerListing.AlwaysBackedIff` | Backend/internal/repository/postgres/servers.go:515-596 | throughout a run every published or offline-but-shown host and port has itself answered a check, or was restored with the listing, if and only if no check commits as the two cases say |
| `ServerListing.StepBackedIff` | Backend/internal/repository/postgres/servers.go:550-596 | one step breaks that exactly when it commits an online result that publishes an address other than the probed one, or an offline result for a listing published before it moved |
| `ServerListing.ShownIsBacked` | Backend/internal/repository/postgres/servers.go:36-41 | so without such a commit the public page shows only addresses that have answered or were restored |
| `ServerListing.PublishedIsProbed` | Backend/internal/repository/postgres/servers.go:260-389 | if no owner moves a listing to another address while it is being probed, every published address has answered or was restored; changing the password alone is harmless |
| `ServerListing.HiddenUntilRestored` | Backend/internal/repository/postgres/servers.go:606-648 | no owner edit, verification request or check shows a hidden listing again before a restore |
| `ServerListing.DeletedNeverReturns` | Backend/internal/repository/postgres/servers.go:391-403 | no step at all, not even a restore, shows a deleted listing again |
| `ServerListing.CheckDecides` | Backend/internal/repository/postgres/servers.go:550-596 | status and publication time after each result of a check, for each status the listing may have; nothing for a deleted or hidden one |
| `ServerListing.UpdateDecides` | Backend/internal/repository/postgres/servers.go:260-389 | who may edit; a changed endpoint takes the listing off the page with a check live for it, any other edit leaves status and queue alone |
| `ServerListing.AdminDecides` | Backend/internal/repository/postgres/servers.go:606-648 | hiding takes a listing off the page; restoring shows it exactly if it is public |
| `ServerListing.DeleteDecides` | Backend/internal/repository/postgres/servers.go:391-403 | only the owner deletes, and the page no longer shows the listing |
| `ServerListing.ScheduleDecides` | Backend/internal/repository/postgres/servers.go:434-492 | the scheduler queues a check exactly for a listing that is waiting, listed, offline or failed, not deleted, and has no check live |
| `ServerListing.AtMostOneLiveCheck` | Backend/internal/repository/postgres/servers.go:874-892 | without admin retries a server never has two checks pending or running |
| `ServerListing.RetryKeepsOneIff` | Backend/internal/repository/postgres/jobs.go:158-247 | an admin retry keeps that exactly when no other check of the server is live |
| `ServerListing.RestoreWithoutTimeIff` | Backend/internal/repository/postgres/servers.go:606-648 | in every reachable state, a restore leaves a published listing without `published_at` exactly when it had none and is not deleted |
| `ServerListing.RestoredWithoutProbe` | Backend/internal/repository/postgres/servers.go:602-648 | from every such state an admin can show a listing that no check ever reached |
| `ServerListing.StaleCheckPublishesNewEndpoint` | Backend/internal/repository/postgres/servers.go:515-596 | a check in flight while the owner changes the endpoint publishes the new one, whose address is backed only if it is the probed one or was before; the queue is as before the change, so no further check is waiting |
| `ServerListing.OfflineCheckShowsMovedEndpoint` | Backend/internal/repository/postgres/servers.go:552-554 | with nothing in flight, a published listing that changes its endpoint and is then found offline is shown with the new one, backed only if it was before |
| `ServerStore.Store.EnqueueServerCheckTx` | Backend/internal/repository/postgres/servers.go:874-892 | a job is added exactly when the server has none pending or running |
| `ServerStore.Store.CreateListing` | Backend/internal/repository/postgres/servers.go:185-258 | a listing starts unverified with a check queued |
| `ServerStore.Store.UpdateOwned` | Backend/internal/repository/postgres/servers.go:260-389 | a changed host, port or password, and nothing else, resets the status and queues a check |
| `ServerStore.Store.RequestVerification` | Backend/internal/repository/postgres/servers.go:405-432 | the owner's listing is reset and a check queued; others are refused |
| `ServerStore.Store.DeleteOwned` | Backend/internal/repository/postgres/servers.go:391-403 | only the owner deletes, once |
| `ServerStore.Store.CompleteCheck` | Backend/internal/repository/postgres/servers.go:515-596 | status and publication time follow the result, unless the listing is deleted or hidden |
| `ServerStore.Store.SetAdminStatus` | Backend/internal/repository/postgres/servers.go:606-648 | hides or publishes any listing that is not deleted |
| `Sessions.TokenWinsOnce` | Backend/internal/repository/postgres/users.go:754-781 | in every run each refresh token wins at most one rotation, however many requests present it at once |
| `Sessions.TokenNamesOneSession` | Backend/internal/repository/postgres/users.go:962-1019 | no two sessions answer to one token |
| `Sessions.OldTokensStayDead` | Backend/internal/repository/postgres/users.go:505-518 | after a confirmed password change no earlier token of the user is ever accepted, not even one that a refresh in flight is about to swap in; only logins verified before it are excepted |
| `Sessions.OldTokenSurvivesIff` | Backend/internal/repository/postgres/users.go:505-518 | an earlier token can be accepted after the change if and only if it belongs to such a login that has no session yet |
| `Sessions.LoginOutlivesChange` | Backend/internal/http/handlers/auth/handler.go:286-309 | that exception is real for every such login |
| `Sessions.RotationGrants` | Backend/internal/repository/postgres/users.go:754-781 | a rotation succeeds exactly for the live refresh token; the new access and refresh tokens are accepted until the first and the second time given, and the old pair no more |
| `Sessions.LoginGrants` | Backend/internal/repository/postgres/users.go:720-744 | a login opens one session of its user with tokens that last as given |
| `Sessions.RefreshBegins` | Backend/internal/http/handlers/auth/handler.go:384-401 | only an accepted refresh token, never an access token, starts a rotation |
| `Sessions.RevocationEnds` | Backend/internal/repository/postgres/users.go:386-393 | a password change ends every other session of the user, a reset or ban all of them, and nobody else's |
| `Sessions.LogoutEnds` | Backend/internal/repository/postgres/users.go:783-796 | a logout ends both tokens of the pair and no others |
| `Sessions.Store.RotateSession` | Backend/internal/repository/postgres/users.go:754-781 | swaps the pair only in a live session that still holds the presented token |
| `Sessions.Store.RevokeSessions` | Backend/internal/repository/postgres/users.go:386-393 | revokes exactly the user's sessions, but for the one kept |
| `Sessions.Store.FindByRefreshToken` | Backend/internal/repository/postgres/users.go:962-1019 | finds a live session of the token if there is one |
| `Sessions.Store.RefreshOnce` | Backend/internal/http/handlers/auth/handler.go:384-401 | run alone, a refresh succeeds exactly for a live token, and that token is dead afterwards |
| `RateLimit.FixedWindowBound` | Backend/internal/ratelimit/redis.go:34-48 | at most `2 * limit - 1` requests are admitted in any half-open interval of a window's length, even if EXPIRE is late or lost |
| `RateLimit.BoundIsMet` | Backend/internal/ratelimit/redis.go:34-48 | for every limit, some arrivals reach that number |
| `RateLimit.SpanOfAdmissions` | Backend/internal/ratelimit/redis.go:34-48 | any `2 * limit` consecutive admissions take at least one window |
| `RateLimit.RefusedForEverIff` | Backend/internal/ratelimit/redis.go:39-46 | in every reachable state at the limit, all later requests are refused for ever without a further EXPIRE exactly when the key's EXPIRE is owed |
| `RateLimit.WithoutExpiryOnlyTheLimit` | Backend/internal/ratelimit/redis.go:39-46 | if no EXPIRE ever arrives, at most `limit` requests are admitted in the whole life of the key |
| `RateLimit.EmailDailyBound` | Backend/internal/repository/postgres/users.go:925-941 | at most `limit` e-mail jobs are created in any closed day |
| `RateLimit.EmailAcceptedIff` | Backend/internal/repository/postgres/users.go:925-941 | a job is created exactly when there is no limit or fewer than `limit` were created in the last day |
| `RateLimit.RedisLimiter.Allow` | Backend/internal/ratelimit/redis.go:34-48 | a request is admitted exactly when its count is within the limit and, for the first, its EXPIRE succeeded |
| `Social.CountersAreExact` | Backend/internal/repository/postgres/social.go:84-253 | in every run `likes_count` and `comments_count` are the numbers of like rows and visible comments |
| `Social.ClampNeverActs` | Backend/internal/repository/postgres/moderation.go:441-464 | a counter about to be decremented is positive, so clamping at zero never changes a value |
| `Social.LikesToggle` | Backend/internal/repository/postgres/social.go:162-253 | like and unlike undo each other and are idempotent |
| `Social.LikeAccepted` | Backend/internal/repository/postgres/social.go:162-253 | likes and unlikes need an open item, and change that one like and no comment |
| `Social.CommentAccepted` | Backend/internal/repository/postgres/social.go:84-160 | a comment needs an open item and a visible parent on it if it has one, and is visible at once |
| `Social.ReviewAccepted` | Backend/internal/repository/postgres/moderation.go:404-440 | a pending comment can be approved or hidden, a visible one hidden; only its status changes |
| `Social.Store.LikeItem` | Backend/internal/repository/postgres/social.go:162-208 | row and counter change together and the returned count is the stored one |
| `Social.Store.UnlikeItem` | Backend/internal/repository/postgres/social.go:210-253 | the same for the removal |
| `Social.Store.WriteComment` | Backend/internal/repository/postgres/social.go:84-160 | a comment needs an open item and, as a reply, a visible parent on the same item |
| `Social.Store.ReviewOne` | Backend/internal/repository/postgres/moderation.go:404-504 | the counter moves exactly when the comment enters or leaves visibility |
| `ByteRange.ParseRangeHeader` | Backend/internal/http/handlers/downloads/handler.go:179-240 | accepts exactly no header, or one valid and satisfiable specifier, and yields the non-empty interval it selects by section 14.1.2 of RFC 9110 |
| `ByteRange.Resolve` | Backend/internal/http/handlers/downloads/handler.go:206-239 | the computed interval is the selected set of bytes, or the selection is empty or invalid |
| `ByteRange.HeaderRoundTrip` | Backend/internal/http/handlers/downloads/handler.go:179-204 | a valid specifier written as the standard writes it is read as that specifier if and only if its numbers are within 64 bits and its suffix is not empty; otherwise it is refused |
| `RangeGrammar.ReadIffGrammatical` | Backend/internal/http/handlers/downloads/handler.go:179-229 | a header is read as a specifier if and only if it is a sentence for it of a grammar of blanks, unit, optional signs and digits that knows nothing of the reader |
| `RangeGrammar.NoHeaderIff` | Backend/internal/http/handlers/downloads/handler.go:180-183 | a header counts as absent exactly when it is white space |
| `ByteRange.OneDownloadPerTiling` | Backend/internal/http/handlers/downloads/handler.go:242-244 | however requests tile a file, the download is recorded exactly once |

## Left out

- Claim: which rows are locked at the moment of a claim is arbitrary, and in the step machine a claim may take any eligible row, because SKIP LOCKED may pass over any of them.
- CreateUpload: categories, slugs and the uploader's second lock on the file hash are not modelled, because the duplicate check is part of the atomic transaction.
- UpdateOwned: replacing the tag rows is reduced to the tag list, and title, description and tags are compared as whole values.
- ReadDocument: of the search document only title, description, tags and NSFW mark are modelled; its counters and dates follow from refresh jobs that are.
- InspectObject: hashing, antivirus and package validation are one reading step with an arbitrary outcome; the embedded-preview image that follows a clean scan is not modelled.
- EnqueueDue: which listings are due is arbitrary and a batch is a sequence of single insertions, because only the number of live jobs is at stake.
- ValidateConnector: errors before the sections, and errors within one section, are each one error value; JSON decoding is not modelled, and trimming, lower-casing and UTF-8 validity are arbitrary functions.
- OwnerStorageUsage: 64-bit overflow of the sum is not modelled, because row sizes are bounded by the upload limit.
- ParseConnectionString: white space and letter case are those of ASCII; Go also trims and folds other Unicode characters.
- ParseRangeHeader: the code also accepts signs and inner spaces, which the grammar of the standard does not; `RangeGrammar` says exactly which headers those are. White space is that of ASCII.
- BuildQueryPacket: sending, receiving and the timeout of the UDP probe are not modelled; a check's result is arbitrary.
- EmailDailyBound: two transactions that count at the same moment could both pass under read committed isolation; each is taken as atomic.
- AtMostOneLiveCheck: the scheduler and an owner's request could both insert under read committed isolation; each is taken as atomic.
- Objects of images, thumbnails and their removal: image rows appear only as sizes in the quota.
- Audit, moderation and report rows, categories, tags, view statistics and unlisted download tokens.
- Liveness after a crash: a job whose worker was lost stays running, and only safety is claimed.
- HTTP routing, cookies, CSRF, configuration, mail delivery, Turnstile and the search engine itself.
- AES, PBKDF2, SHA-256, Argon2id and random numbers: only invertibility and freshness are used.
