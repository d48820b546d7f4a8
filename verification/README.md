# Cotests: the content protocol and its policies

Cotests is a contest-authoring backend.  This project models the parts of it that decide something, and proves what they decide:

- **Two stores.**  Problem revisions, tests and import previews are rows of a database; their bytes are files in a directory.  `disk.dfy`, `rows.dfy` and `world.dfy` describe both as one state machine: committed tables, the pending writes of each open transaction, the row locks they hold, the files, the staging files, the storage mutex, a clock, and crashes.  A step is one file-system call, one SQL statement or one commit, and any number of requests and collections interleave.  `disk_safety.dfy`, `disk_bounds.dfy`, `rows_safety.dfy`, `rows_commit.dfy` and `world_safety.dfy` prove what every step keeps; `disk_undo.dfy` follows the files of one failing transaction; `world_runs.dfy`, `rollbacks.dfy`, `imports.dfy`, `import_runs.dfy`, `clones.dfy`, `codes.dfy`, `edits.dfy`, `staging.dfy`, `constraints.dfy` and `preview_runs.dfy` prove the theorems about whole runs.  `progress.dfy` says what a step waits for, so that those theorems are about interleavings that do occur.
- **The operations.**  `system.dfy` holds the state in a class whose only way to change is a step of that machine.  `store.dfy`, `files.dfy`, `tests.dfy`, `zip.dfy`, `collector.dfy`, `drafts.dfy` and `assignments.dfy` are the operations of the service as imperative methods over it, with their loops, their early returns and their compensation.  Each says what it does when it runs alone, that a failure changes nothing, and, when the store and the database do not fail, exactly when it succeeds.  (`faults` lets every file-system call and commit fail at will.)
- **Around them.**  `importer.dfy` is the ZIP importer, `validation.dfy` the checks on problems and revision metadata, `reorder.dfy` the two-pass reordering, `limiter.dfy` the limiter of authentication attempts, `members.dfy` contest memberships, `policy.dfy` and `policy_runs.dfy` the read policy.

## Assumptions

- Random storage keys and staging names are fresh: a name is never drawn twice.
- SHA-256 has no collisions; a digest is represented by the content it is the digest of, and a 64-digit storage key by a number.
- A transaction that returns an error has been rolled back (internal/content/files.go:26-38).
- No transaction stays open for the whole hour of grace (internal/content/files.go:246-252): the clock does not pass that point while one is open.
- One nondecreasing clock gives the instants that the service reads, the `created_at` of rows and the modification times of files.
- One process owns an artifact directory.  Row locks are exclusive and held until the transaction ends; constraints are checked at every write; a foreign key can be written only while nobody is deleting the row it points to.
- The configured limits are positive and small enough that `MaxBytes + 1` does not overflow (internal/config/runtime.go:56-59).
- The ZIP reader and the JSON parser are deterministic; they are parameters.  Trimming is Unicode white space; lower-casing of extensions is the part of Go's that can produce ASCII letters.
- The theorems about runs start from a fresh installation, or from any state that satisfies the invariant.

## Where the code promises less than one might think

- `UpdateDraftRevision` writes back the PDF reference that its caller has read earlier (internal/db/problems.go:79-83), so an upload in between is lost: `Edits.LoseUpload` makes the three calls.  `Edits.PdfSurvives` is the exact condition, with everybody else at work: the PDF the row has when it is locked survives if and only if it is the one passed.  `Edits.ReadPdfSurvives` is the same seen from the moment the caller reads: it survives if and only if no commit since then has written the draft, or the last one has left the PDF that was read.
- The permission check of `setMember` is made before the lock is taken (internal/content/service.go:119-128), so someone who has just been demoted still adds a participant: `Members.DemotedStillAdds` is such a run.  `Members.ManagesAtCommit` is the exact condition: the caller still manages the contest at the commit if and only if no admin has changed the caller's role there since the check, or the last one to do so has left it at organizer.
- The limiter reads the clock before it takes its mutex (internal/server/handlers.go:300-301), so attempts may be counted in another order than that of their times.  The bounds on counts and on the table need no order; the rate bound does: `Limiter.LateAdmissions` is a run with attempts that are late by one nanosecond and 29 admissions in a minute, where the bound is 19, and `Limiter.BoundNeedsOrder` says that the bound holds for all runs with lateness up to `d` if and only if `d` is zero.  `Limiter.LateRateBound` is what holds for `d` below a window, and that run reaches it; by `Limiter.LimitsUpToAWindow` there is a bound at all if and only if `d` is less than a window.
- Only the revision, its tests and their bytes are frozen by publication.  The title and code of the problem stay editable: `Progress.TitleStaysEditable`.
- The quota counts what is in the directory, staging files excluded (internal/artifact/store.go:73).  Without crashes there is at most one of these, that of the Save that holds the mutex: `Staging.OneStagingFile`.  With crashes they pile up without bound, past any quota, until the collector removes them: `Staging.StagingPilesUp` and `Staging.StagingExceedsTheQuota`.

## Model

| member | source | states |
|---|---|---|
| WorldRuns.EveryRowHasItsFile | internal/artifact/store.go:86-97 | in every run from a fresh installation, each committed artifact row has a file under its key with exactly the bytes and the size recorded |
| DiskSafety.StepKept | internal/artifact/store.go:33-105 | under every interleaving no two claims share a file, every claim is backed by its file, and removal queues hold only keys nobody can need again |
| DiskSafety.CheckedKeyIsDead | internal/content/files.go:310-323 | a file older than the cutoff without a committed row belongs to no open transaction either, so the orphan sweep removes nobody's file |
| DiskSafety.DeletedKeyIsDead | internal/content/files.go:252-282 | once the deletions have committed, no row, pending row or running Save claims a file in the unlink queue |
| DiskSafety.AbortedKeyIsDead | internal/content/files.go:35-40 | the files that a rollback removes are claimed by nobody else |
| WorldSafety.StepKept | internal/db/models.go:61-145 | every step of every party keeps the foreign keys across the two stores, the constraints of the tables and the locks |
| WorldSafety.MarkLinkable | internal/content/files.go:242-256 | marking a preview cannot race with its deletion: its archive is not being deleted |
| RowsSafety.StmtKept | internal/db/problems.go:75-158 | every statement keeps the unique indexes, the checks, the row locks and what pending writes may be |
| RowsCommit.CommitKept | internal/db/problems.go:25-33 | a commit breaks no constraint and no other open transaction |
| RowsCommit.SingleAssignsKept | internal/content/service.go:245-262 | an assignment inserted after an earlier check still points to a published revision of the problem it records |
| WorldRuns.PublishedIsFrozen | internal/db/problems.go:68-119 | a published revision keeps its statement, metadata, PDF reference and set of tests, and the bytes of the PDF and of the input and the output of every test, in every later state of every run |
| WorldRuns.NothingInUseIsCollected | internal/content/files.go:246-326 | in every reachable state the PDF of every revision, the input and the output of every test, sample or hidden, and the archive of every preview have their rows and their files with the recorded bytes |
| WorldRuns.PreviewOutlivesItsExpiry | internal/content/files.go:165-215 | until an hour after its expiry a preview keeps its row, its archive's row and the file, whatever the collector does |
| WorldRuns.QuotaNeverExceeded | internal/artifact/store.go:66-91 | the bytes in the directory never exceed the quota, although removals do not take the mutex |
| Staging.OneStagingFile | internal/artifact/store.go:34-51 | a run without crashes has at most one staging file, that of the Save that holds the mutex and has not renamed it yet |
| Staging.StagingPilesUp | internal/artifact/store.go:46-51 | from any world with a draft in which nobody is at work, requests that die after staging leave any number of bytes in staging files |
| Staging.StagingExceedsTheQuota | internal/artifact/store.go:66-85 | whatever the quota, such a run leaves more bytes in staging files than it allows |
| DiskBounds.RemovalBound | internal/artifact/store.go:100-105 | a removal at any point of the scan keeps the sum read so far an upper bound |
| Rollbacks.FailedTransactionLeavesNoTrace | internal/content/files.go:24-41 | on a busy server, if a transaction does not commit, nothing crashes and its own removals succeed, then none of its steps has changed a table, and every file that one of them made, changed or removed is gone once it is over, then and in every later state |
| Rollbacks.FailedTransactionLeavesNoFile | internal/artifact/store.go:86-97 | likewise every file that the transaction has given its final name, inserted or not, is gone for good once it is over |
| Rollbacks.RollbacksHappen | internal/content/files.go:35-39 | such runs exist: a transaction with one saved file that gives up can be rolled back and its file removed |
| Rollbacks.OnlyCommitsChangeTables | internal/content/files.go:26-34 | in every interleaving only commits and statements outside transactions change the committed tables |
| DiskUndo.OwedKept | internal/content/files.go:26-40 | whoever takes a step, a file that a failing transaction has made stays claimed by it or in its own removal queue until it is gone |
| DiskUndo.GoneForGood | internal/artifact/store.go:86-105 | a file that is gone and that nobody claims never comes back and is never claimed again |
| DiskUndo.OnlyOwnFiles | internal/content/files.go:27-40 | a thread that does not collect touches only files that it has made and still has to remove or commit |
| WorldRuns.TidyRunLeavesNoOrphan | internal/content/files.go:22-23 | in a run without crashes, failed removals and abandoned collections, whenever all is quiet every generated file has a committed row |
| DiskBounds.AccountKept | internal/content/files.go:22-41 | every stored file is claimed, queued for removal or a known stray, and only a crash, a failed removal or an abandoned collection adds a stray |
| Constraints.EveryRevisionIsInOrder | internal/db/models.go:98-145 | in every reachable state each revision and test meets the checks and unique indexes of its table: number, limits, sizes, content once published, and the position, points and limit of each test |
| Constraints.EverySeriesIsInOrder | internal/db/models.go:117-129 | in every reachable state the problems of a series differ in code and in position |
| Constraints.EveryProblemIsNamed | internal/db/models.go:86-96 | in every reachable state every problem has a title and a code |
| Progress.BeginWaitsForNobody | internal/content/files.go:24-26 | a thread that is not at work can begin a transaction, whoever else is at work |
| Progress.CommitWaitsForTheWhole | internal/content/files.go:26-34 | a transaction commits only with no Save under way or failed, an import complete and marked, a clone with every test copied |
| Progress.CommitWaitsForNobody | internal/content/files.go:26-34 | and then it can commit whatever others do |
| Progress.DeletionTakesUnneededRows | internal/content/files.go:259-269 | a collector deletes only rows older than its cutoff that are no PDF, no input, no output and no archive of a preview that stays |
| Progress.ImportReadsTheClock | internal/content/files.go:201-214 | an import begins with the time of the clock, before the expiry of its own preview that is not committed yet |
| Progress.TimePasses | internal/content/files.go:246-252 | the clock can advance to any moment at which no open transaction is an hour old |
| Progress.TwoAtOnce | internal/db/problems.go:108-119 | from an idle system two requests can edit two drafts at once |
| Progress.LockWaitsForItsRow | internal/db/problems.go:108-119 | a draft can be locked exactly when no other open transaction works on it |
| Progress.SaveWaitsForTheMutex | internal/artifact/store.go:33-35 | a save can begin exactly when nobody holds the mutex |
| Progress.TitleStaysEditable | internal/db/models.go:86-96 | a problem can be given any free code and title at any time, published or not, and that changes nothing else |
| WorldRuns.EveryAssignmentIsPublished | internal/content/service.go:245-262 | in every reachable state an assignment points to a published revision of the problem it records |
| WorldRuns.PublishOnlyNeedsContent | internal/db/problems.go:87-105 | publishing a stored draft is refused exactly when it has neither statement nor PDF |
| Imports.PreviewsStayReadable | internal/content/files.go:149-217 | the archive of every preview in the table is on disk and acceptable to the importer |
| ImportRuns.ImportedAtMostOnce | internal/content/files.go:190-244 | over any run of repeated and concurrent commits a preview is imported at most once |
| ImportRuns.EveryImportIsExact | internal/content/files.go:217-242 | an import whose transaction commits is complete: it sets the mark, keeps the old tests and appends one test for each pair of the archive, in name order, at the next positions and with the content of the pair; nothing else changes |
| ImportRuns.FirstImportStartsAtZero | internal/content/files.go:221-241 | into a draft without tests the k-th pair is imported at position k, hidden, without points and limit, with the content of the pair |
| ImportRuns.OrderExists | internal/db/models.go:131-134 | tests with unique positions can be listed by position |
| PreviewRuns.PreviewIsWhatIsImported | internal/content/files.go:141-217 | the pairs that a preview has reported are those a commit reads at any later moment at which it is allowed |
| Edits.LockHolds | internal/db/problems.go:108-119 | between the lock of a draft and the end of the transaction nobody else changes the revision or the transaction |
| Edits.PdfSurvives | internal/db/problems.go:75-84 | in every interleaving the PDF of a locked draft survives an update exactly when it is the reference the caller passes |
| Edits.ReadPdfSurvives | internal/db/problems.go:68-85 | in every interleaving, seen from the caller's read, the PDF of the locked draft survives exactly when no commit since the read has written the draft or the last one has left the PDF that was read |
| Edits.PdfByLastCommit | internal/db/problems.go:79-83 | in every run the PDF of a revision is the one that the last commit to write the revision has left |
| Edits.LoseUpload | internal/db/problems.go:68-85 | the three calls after which an upload that succeeded is lost |
| Codes.ProblemCodesAreUnique | internal/db/models.go:86-96 | in every reachable state no two problems have the same code, however creations and renamings interleave |
| Clones.RevisionsAreNumbered | internal/db/problems.go:121-141 | in every reachable state the revisions of a problem are numbered exactly 1 to n, each number once |
| Clones.NumbersBelow | internal/db/models.go:98-101 | if a number is taken then so are all below it |
| Clones.EveryDraftIsACopy | internal/db/problems.go:121-154 | a new draft has the next number and is one coherent copy of the latest revision, tests included, that creates no file |
| Store.Save | internal/artifact/store.go:33-98 | a save adds one row and one file with the content, or leaves only a failed transaction; it rejects exactly a missing owner, a blank file name and a limit that is not positive, before it touches anything, and without faults it fails otherwise exactly for the size limit or the quota |
| Store.Measure | internal/artifact/store.go:66-81 | the entry-by-entry sum is the total of the directory |
| Files.SaveWithin | internal/content/files.go:27-33 | every file a transaction has saved is known to it and to nobody else |
| Files.Rollback | internal/content/files.go:35-40 | after the compensation tables and files are as they were before the transaction, as far as removals succeed |
| Files.OpenDraft | internal/db/problems.go:110-119 | the lock is granted exactly to drafts |
| Tests.SaveTest | internal/content/files.go:52-86 | saves exactly the one test, with the position, the sample flag, the points and the limit of the request and two new artifacts with its texts, or changes nothing and names the first check that refuses; without faults it succeeds exactly on admissible calls |
| Tests.DeleteTest | internal/content/files.go:88-105 | removes exactly the one test and no file |
| Tests.UploadPDF | internal/content/files.go:107-128 | replaces exactly the PDF reference by a new artifact with the bytes of the upload |
| Zip.PreviewZIP | internal/content/files.go:141-188 | adds one preview whose archive reads as exactly the pairs reported; without faults it succeeds exactly for importable archives of drafts |
| Zip.CommitZIP | internal/content/files.go:190-244 | imports everything once or changes nothing and names the first check that refuses, never fails for a missing or unreadable archive, and does nothing when repeated; without faults the conditions are exact |
| Zip.ImportAll | internal/content/files.go:228-241 | the loop inserts one test for each pair and stops only at a file that does not fit |
| Zip.PairBytesGrow | internal/content/files.go:228-241 | the first pairs of an archive need no more room than all of them |
| Zip.MaxPosition | internal/content/files.go:221-224 | the highest position of a test, or -1 exactly when there is none |
| Collector.Collect | internal/content/files.go:246-326 | alone and without faults an artifact stays exactly if it is young or is the PDF of a revision, the input or the output of a test or the archive of a preview that stays; a preview, a generated file and a staging file stay exactly as their ages and rows say; before its commit a failure changes nothing; in any case the number returned is that of the directory entries removed |
| Collector.CollectTemporary | internal/artifact/store.go:109-137 | removes exactly the staging files older than the cutoff |
| Collector.Unlink | internal/content/files.go:275-282 | removes exactly the files of the deleted rows |
| Collector.SweepOrphans | internal/content/files.go:288-325 | removes exactly the generated files older than the cutoff that have no row |
| Collector.QueuedKeys | internal/content/files.go:254-282 | the unlink queue holds exactly the keys that had a row and have none any more |
| Drafts.CreateDraftRevision | internal/db/problems.go:121-159 | adds exactly one draft, a copy of the latest revision, or changes nothing; without faults it succeeds for every problem that has a revision |
| Drafts.Latest | internal/db/problems.go:127-130 | finds the revision with the highest number |
| Drafts.PublishRevision | internal/db/problems.go:87-106 | publishes exactly the one draft as it is; without faults it is refused only for lack of content |
| Drafts.UpdateDraftRevision | internal/db/problems.go:68-85 | stores exactly the normalised metadata and the PDF of the caller, or changes nothing and names the first check that refuses, the caller's copy of the state first; without faults the conditions are exact |
| Drafts.CreateProblem | internal/db/problems.go:18-34 | adds exactly a problem with the trimmed title and code and an empty first draft numbered 1, or changes nothing; without faults it succeeds exactly for acceptable names, kind and metadata and a code that is not taken |
| Validation.ValidateProblem | internal/db/problems.go:181-197 | accepts exactly the owners, titles, codes and kinds that fit once trimmed, and returns them trimmed |
| Assignments.Assign | internal/content/service.go:245-262 | succeeds exactly for callers who manage both the contest of the series and the problem, published revisions and a free code and position, and records the problem of the revision |
| Validation.ValidateRevision | internal/db/problems.go:199-224 | accepts exactly the metadata that fits once normalised, returns it normalised, and otherwise names the first check that fails |
| Validation.CheckLanguages | internal/db/problems.go:210-216 | the loop with its map of identifiers seen finds exactly the bad and the repeated ones |
| Validation.NormalisedIsFixed | internal/db/problems.go:199-224 | what validation lets through is a fixed point of it |
| Validation.TrimSpaceIsMiddle | internal/db/problems.go:182-183 | trimming takes the white space off both ends and nothing else |
| Validation.SpacesListed | internal/db/problems.go:200-202 | the white space is that of the 25 code points with the property White_Space |
| Validation.ByteLengthAdds | internal/db/problems.go:217 | lengths are those of UTF-8: additive, one to four bytes for a character |
| Validation.TrimSpaceIdempotent | internal/db/problems.go:200-202 | trimming is idempotent and leaves exactly the trimmed texts alone |
| Importer.ReadTestZIP | internal/importer/tests.go:28-92 | succeeds exactly on the archives that meet the declared conditions, with the pairs in ascending byte order of their names that give back every file exactly once; draws at most MaxBytes + 1 bytes in any case |
| Importer.PairingOnFiles | internal/importer/tests.go:49-91 | each pair has the bytes of the entry named after it with extension .in and of the one with .out, in whatever capitals, each entry is that of a pair, and of two pairs the earlier name is a prefix of the later or is smaller at the first difference |
| Importer.LessIsByteOrder | internal/importer/tests.go:86 | the order of the pairs is the byte order of strings: a proper prefix first, else the smaller character at the first difference |
| Importer.TestFileNames | internal/importer/tests.go:58-62 | an entry is an input or an output of a test exactly when its name is that of the test with the extension, in whatever capitals |
| Importer.ReadEntries | internal/importer/tests.go:49-78 | the loop accepts exactly the sound lists within the budget; its later check of the total never fires |
| Importer.ReadBounded | internal/importer/tests.go:101-118 | reads an entry exactly when it fits what is left, and never more than one byte beyond |
| Importer.PairUp | internal/importer/tests.go:79-91 | pairs exactly the complete tables |
| Importer.PairingUnique | internal/importer/tests.go:86-91 | an archive has only one pairing, whatever the order of its entries |
| Importer.OrderDoesNotMatter | internal/importer/tests.go:49-91 | reordering the entries changes neither acceptance nor result |
| Importer.ValidNameIsFlat | internal/importer/tests.go:94-99 | the accepted names are exactly the non-empty ones without slash or backslash |
| Reorder.Table.Reorder | internal/content/service.go:280-322 | succeeds exactly for complete lists within the limits, puts ids[i] at position i, leaves other parents alone, restores the table on refusal, and every table on the way keeps the constraints and stays below 2^31 |
| Reorder.Table.Lift | internal/content/service.go:306-314 | the first pass is never refused by the database and stops exactly at an unknown or repeated identifier |
| Reorder.Table.Lower | internal/content/service.go:315-319 | the second pass is never refused by the database |
| Reorder.Table.Survey | internal/content/service.go:295-305 | finds the rows and the top of the range in use |
| Reorder.LiftedIsAcceptable | internal/content/service.go:306-314 | every table of the first pass keeps uniqueness, non-negativity and range |
| Reorder.LoweredIsAcceptable | internal/content/service.go:315-319 | every table of the second pass keeps uniqueness, non-negativity and range |
| Reorder.AllNamed | internal/content/service.go:292-310 | as many distinct rows as there are rows are all of them |
| Limiter.Limiter.Allow | internal/server/handlers.go:293-333 | admits exactly when fewer than ten attempts are counted in the current minute for the address and for the email and at most 10000 buckets are open, then counts one more for each of the two, and changes no other open bucket |
| Limiter.AccountBound | internal/server/handlers.go:314 | in an ordered run the attempts on one email that are admitted in k minutes are at most 10k + 9, whatever addresses they come from |
| Limiter.AddressBound | internal/server/handlers.go:314 | the same for one address, whatever emails it tries |
| Limiter.StrangersKeepApart | internal/server/handlers.go:314-331 | attempts that share neither address nor email never change each other's open buckets |
| Limiter.RateBound | internal/server/handlers.go:293-333 | with nondecreasing times a key is admitted at most 10k + 9 times in any half-open interval of k minutes |
| Limiter.WindowsApart | internal/server/handlers.go:306-331 | with lateness up to d two windows of a key start at least a window less d apart |
| Limiter.LateRateBound | internal/server/handlers.go:293-333 | with lateness up to d, less than a window, a key is admitted at most 10m - 1 times in a half-open interval, if m times a window less d covers the interval, a window and d; with d zero this is the rate bound |
| Limiter.LimitsUpToAWindow | internal/server/handlers.go:293-333 | some number of admissions in a minute is never exceeded by any run with lateness up to d if and only if d is less than a window |
| Limiter.BoundNeedsOrder | internal/server/handlers.go:300-331 | the rate bound holds of every run with lateness up to d if and only if d is zero |
| Limiter.LateAdmissions | internal/server/handlers.go:300-331 | a run with attempts one nanosecond late admits one key 29 times in one minute, as many as the bound for such runs allows |
| Limiter.AlwaysSane | internal/server/handlers.go:304-331 | for any times, every bucket holds 1 to 10 and the table at most 10002 |
| Limiter.RefusalChangesNothing | internal/server/handlers.go:313-323 | a refused attempt changes no open bucket |
| Members.AlwaysOneRole | internal/db/models.go:52-56 | in every interleaving a user keeps at most one role in a contest |
| Members.OnlyAdminsMakeOrganizers | internal/content/service.go:119-148 | in every interleaving calls of non-admins leave the organizers of every contest as they were |
| Members.OrganizerByLastGrant | internal/content/service.go:119-148 | in every interleaving the organizers of a contest are decided by the last grants and revocations of admins alone |
| Members.ManagesAtCommit | internal/content/service.go:119-128 | the caller still manages the contest at the commit exactly when no admin has changed the caller's role since the check, or the last to do so has left it at organizer |
| Members.DemotedStillAdds | internal/content/service.go:119-148 | a run in which someone who has been demoted since the check still adds a participant |
| Members.EffectThere | internal/content/service.go:143-147 | the write leaves the one user with exactly the role asked for |
| Members.Memberships.SetMember | internal/content/service.go:119-148 | a call that runs alone succeeds exactly under the stated permissions, and changes only the one role |
| Policy.Artifact | internal/content/service.go:376-430 | the search with its early returns admits exactly the admins, the owner of a problem with a revision that has the artifact as its PDF, input or output, and the readers of a statement that shows it; its error exits are unreachable |
| Policy.ReadStatement | internal/content/service.go:342-374 | a statement is served exactly to those who can read the series, with the title of the problem, the code of the assignment, the text, the limits, the PDF and the sample tests in order, each once with its own input and output |
| Policy.SampleCount | internal/content/service.go:366-372 | a statement has as many samples as the revision has sample tests |
| Policy.StatementsCanBeDownloaded | internal/content/service.go:342-430 | every PDF and sample listed in a statement open to a user may be downloaded by that user |
| Policy.DownloadsAreOwnedOrListed | internal/content/service.go:387-428 | a non-admin downloads only what a problem of theirs uses or what a statement open to them lists |
| Policy.ListsWhatIsShown | internal/content/service.go:365-372 | a statement lists exactly the PDF and the files of the sample tests |
| Policy.CanSubmit | internal/content/service.go:211-243 | decides exactly whether a participant can read the series and both windows are open |
| PolicyRuns.ListedFilesAreServed | internal/content/service.go:342-430 | in every reachable state the files listed in an open statement may be downloaded and are on disk with the recorded bytes |

## Left out

- HTTP routing, JSON decoding, multipart handling, pagination and pages: plumbing and user interface.
- GORM, SQL text and the drivers: tables are maps with constraints checked at each write, and a transaction is a lock, pending writes, and a commit or a rollback.
- Schema migrations: what they do is decided by GORM and SQLite.
- Password hashing, CSRF signing, session tokens and cookies: foreign cryptography.
- Directories, symbolic links and permission bits in the artifact directory, and failures of sync: only regular files are modelled.
- Durability across power loss, and commits whose outcome is unknown: the code does not decide these.
- Deleting contests, users, series, problems and revisions, and editing contests and series: no property here depends on them; those tables enter the read policy as parameters.
- Kinds of problems (there is only one), file names and content types of artifacts: not stored in the model; a save checks that its file name is not blank, and nothing else reads them.
- Users are not rows of the state machine: the foreign keys to them are taken to hold.
- Authorisation at the head of the operations on drafts, files and the collector: decided in `policy.dfy` and not repeated there.
- Disk.Commit: a collector whose selected row has meanwhile been deleted by another collector still unlinks that key in the original (internal/content/files.go:265-282) and counts it; here it can no longer delete the row and never queues the key.  The key is dead by then, so nothing depends on it.
- Rows.StartImport: reads the preview, the archive and the highest position in one step; the original reads them one after the other, which makes no difference because the revision is locked and the preview cannot be deleted in between.
- Rows.CloneLatest: chooses the latest revision, locks it and reads it again in one step; only the holder of the problem's row, which is this transaction, can add a revision in between.
- Disk.Enabled: the orphan sweep reads the age of a file and looks for its row in one step; the age of a file never changes, and a key is never used again.
- Tests.SaveTest: as for all the methods that run operations, what it computes is stated for a call that runs alone, with the clock standing still; what holds when calls interleave are the theorems about runs.
- Disk.Apply: a Save that fails always removes its staging file; the original tries to (internal/artifact/store.go:51) and leaves a failure of that to the collector.
- Limiter.Limiter.Allow: splitting the address and normalising the email are done before it; durations do not saturate.
