# Verification of a torrent-style file sharing system

A model of a peer-to-peer file sharing program and proofs about it. The program has two linked parts: peers that
download a file in parallel chunks from several seeders, and a pair of trackers that keep users, groups and file
listings in flat text files and push every changed file to each other. Both parts are state machines, and the main
results are about all of their runs.

Check everything with `dafny verify dfyconfig.toml`.

## What is modelled

**Parallel download.** `Chunks` holds the byte arithmetic of one transfer (the sender emits up to 525312 bytes for a
524288-byte chunk, the receiver may write up to 1023 bytes past it) and the per-chunk hash. `Download` interleaves the
chunk kernels over one shared file: each connect, each received piece, each hang-up, each hash check and each append to
the chunk map is one atomic step. `Selection` is the choice of a seeder per chunk, `Dispatch` the thread batches of
`GetChunks`, `ChunkNumbers` the exchange by which a seeder reports its chunks, and `Planning` joins the four: from the
reports to kernels that begin on their first seeder.

**Trackers.** `Text` and `Store` treat the flat files: lines, fields, file names, deletion of lines. `Handlers` says
what each command does to a disk and its caches; `Tracker` is the program's form of it, a class whose methods run the
line loops and change the caches step by step, each proved equal to `Handlers.Step`. `View` reads a disk as a few finite
sets; `Invariants` and `Commands` show which commands keep it in order. `Replication` puts two trackers together with
crashes, restarts and pushes; `Guarantees`, `Ledgers`, `Accounts`, `Requests` and `StaleCache` state what follows for users.
`Answers` and `FileAnswers` say of each command when it succeeds, what it changes and what later commands then tell, and
`AllAnswers` puts them together for every reachable tracker.

**Bytes.** A disk is a map from typed paths to records. `Directory` gives the directory of file names and bytes behind
it, `Scripts` every command as a list of appends, rewrites and truncations of named files, `ByteRuns` the runs of the
pair in bytes, with `LockstepSync` and `WholeFilePush` as the protocol of a push. `ByteMachine` is the pair of trackers on
directories alone, proved to do what the model does in every run. `Framing` is the other wire protocol.

**Where the code fails.** `Scenes` builds concrete runs for `Breakage` (unsafe commands), `Clashes` (names that share a
file), `LostUpdates` (a restart that catches up too early) and `StaleCache` (caches the sibling has outrun).

**Assumptions.** Digests and password hashing are arbitrary functions given as parameters; where a passing hash check
must mean equal bytes, the hypothesis is that no other sequence of the same length has the digest of a chunk of the
source; where bytes of files are concerned, password hashes hold no space or newline. A seeder's copy is the whole source
file. Tracker commands run one at a time and their pushes finish before the next event; at least one tracker is always
up. Network failure is nondeterministic choice. A run of the pair is guarded when

- every command is proper (`Names.Proper`): arguments hold no white space, names of users and groups are not empty,
  hold no slash, and do not end in `_files` (groups), `_downloading` or `_downloaded` (users);
- every command is safe on the state it meets (`Commands.Safe`), which is exactly what keeps the disk in order
  (`Commands.StepKeepsExactly`): a group is founded by a registered user, an upload has a name, and `add_file` comes
  from a member for a listed file, or is the group's only file without a hash;
- every restarting tracker is sent in time the files it is behind on (`Replication.Lands`), which is exactly what keeps
  the pair replicated (`Replication.AlwaysReplicated`).

**Where the code and its documentation differ.** The repository's README.md (lines 38-43) promises a full state dump on
startup; the code asks for it before its own listener runs, so pushes sent too early are lost:
`Replication.RestartExactly` gives the exact condition and `LostUpdates.EarlyRestartLosesAccounts` a run in which an
account disappears from both trackers. The pending-request cache is dropped only by some handlers: alone, a tracker never
misuses it (`Requests`), but with a sibling it can readmit a user who has left and swallow a new request (`StaleCache`).
Arguments that are not proper break the code in other ways: an account without a name is read back under its secret
(`Accounts.AccountReadBackExactly`), a name with a slash makes files that cannot be opened
(`Replication.PushesOpenableExactly`), and a name with a reserved ending overwrites another file (`Clashes`). All results
about runs therefore require proper arguments.

## Model

| member | source | states |
|---|---|---|
| Chunks.OffsetsFit | peer/peerdownload.cpp:411 | every chunk offset fits a 32-bit int exactly for files of at most 2^31 bytes |
| Chunks.SameChunksSameFile | peer/peerdownload.cpp:442-447 | the chunks 0..nchunks-1 cover the file: equal chunks mean equal files |
| Chunks.CheckMeansDigest | peer/peerdownload.cpp:244-259 | the hash slice of a chunk is in range and the check compares digests of that chunk |
| Chunks.ChunkChecksIffWholeHash | peer/peerdownload.cpp:210-260 | all incremental chunk checks succeed if and only if the whole-file hash comparison does, short last chunk included |
| Chunks.GetFileHash | peer/peer.cpp:456-499 | the read loop returns the concatenated chunk digests and the file size |
| Chunks.TransferFunction | peer/peerserver.cpp:160-177 | the send loop emits exactly the bytes from the chunk start, 525312 or what is left |
| Chunks.ReceiveLoop | peer/peerdownload.cpp:411-424 | for every fragmentation of the bytes that arrive: writes a prefix of the stream in place, all of what arrives up to a chunk and at most 525311 bytes, and is cut exactly when less than a chunk and less than the stream arrives |
| Chunks.EmissionCovers | peer/peerserver.cpp:168-175 | a complete seeder's stream covers the chunk and stays inside the file |
| Download.WrittenBytesAreSource | peer/peerdownload.cpp:417-421 | in every reachable state of every interleaving, a write stays in the file, at most 1023 bytes past its chunk, and is the source's bytes |
| Download.AdvertisedForever | peer/peerdownload.cpp:430-435 | a chunk once in the chunk map stays there, stays equal to the source and keeps passing its check, through any further steps |
| Download.DownloadComplete | peer/peerdownload.cpp:713-716 | when no kernel gives up the file equals the source, its hash matches and each chunk is listed exactly once |
| Download.MismatchOnlyAfterCut | peer/peerdownload.cpp:430-431 | a hash check fails only after a transfer that was cut short |
| Download.Failover | peer/peerdownload.cpp:395-404 | after k refusals a kernel is on seeder (start+k) mod n with k distinct refusals behind it, and it has given up exactly when every seeder refused once |
| Download.ReceivesFromItsSeeder | peer/peerdownload.cpp:372-424 | whatever the copies hold, a kernel receives the rest of its own chunk from the copy of the seeder it is on, from its cursor on |
| Download.RunsAreBounded | peer/peerdownload.cpp:373-438 | every run is at most as long as the work at hand plus a fixed cost per hash mismatch |
| Download.CanStillComplete | peer/peerdownload.cpp:368-439 | from every reachable state in which no kernel has given up, some further steps complete the download, and the file is then the source |
| Download.FetchChunk | peer/peerdownload.cpp:406-431 | one transfer from a seeder that has the source, and its check, in place: bytes only turn into the source's, all that arrives of the chunk is there, a whole chunk passes, a passing chunk is the source's |
| Download.DownloadKernel | peer/peerdownload.cpp:368-439 | the retry loop of one kernel for every sequence of connects, provided the seeders it reaches have the source: attempts count the refusals met, the seeder follows them, it stops only when verified, refused by every seeder or out of connects, and a connection over which the whole chunk arrives is its last |
| Download.StepKeepsInv | peer/peerdownload.cpp:368-439 | every step of every kernel keeps the byte, transfer, failover and chunk-map invariant |
| Selection.Populate | peer/peerdownload.cpp:36-46 | the matrix holds each row's seeder in column 0 and 1 exactly at the chunks it reported |
| Selection.Decide | peer/peerdownload.cpp:48-65 | each chunk gets the seeder of the first row that holds it, -1 if none |
| Selection.CalcChunk | peer/peerdownload.cpp:95-158 | whatever the order among equals, each chunk gets a holder with a shortest report, -1 exactly when nobody holds it; the flag says that some report is partial |
| Dispatch.GetChunks | peer/peerdownload.cpp:441-517 | each chunk gets one thread in order with its assigned seeder, at most 51 are unjoined at any time, each is joined once before the return |
| Dispatch.RoundRobinFair | peer/peerdownload.cpp:476-480 | round robin gives any two seeders chunk counts that differ by at most one |
| Planning.StartDownload | peer/peerdownload.cpp:441-517 | from the reports on, each chunk gets one thread in order; every thread starts on a seeder exactly when all reports are whole or every chunk has a holder; with whole reports chunk k starts on seeder k mod n and any two seeders get equally many up to one, with partial ones each chunk starts on a holder with a shortest report |
| Planning.AskAndStart | peer/peerdownload.cpp:95-158 | from the seeders' chunk maps to the threads: each chunk's thread starts on a seeder that has the chunk, or on number -1 when nobody has it |
| Planning.KernelsBegin | peer/peerdownload.cpp:368-378 | threads that start on seeders are a run of the download in which each kernel connects to its own first seeder |
| ChunkNumbers.GetChunkInfo | peer/peerserver.cpp:16-37 | the reply is -1, -2 or the numbers joined by single spaces |
| ChunkNumbers.ParseReply | peer/peerdownload.cpp:128-147 | the reply is read as everything, nothing or the listed numbers plus one |
| ChunkNumbers.ReplyRoundTrip | peer/peerdownload.cpp:130-146 | every non-empty list is recovered in order shifted by one and collides with neither special reply |
| ChunkNumbers.AskSeeder | peer/peerdownload.cpp:123-147 | what the downloader learns is what the seeder's chunk map says |
| ChunkNumbers.ReportMeansChunks | peer/peerdownload.cpp:128-147 | a report holds exactly the numbers of the chunks the peer has, all of them for a file it is not downloading |
| Framing.ReceiveUndoesFrame | common/tls.cpp:122-138 | one receive takes exactly its length prefix and payload off the stream and leaves the rest |
| Framing.RoundTripIffBounded | common/tls.cpp:111-138 | a sequence of messages is received whole and in order if and only if none exceeds 16 MiB |
| Framing.OversizedIsNotSkipped | common/tls.cpp:122-138 | a message above the bound is refused but not skipped: the next receive reads its payload |
| Framing.CutFrameYieldsNothing | common/tls.cpp:122-138 | a frame cut short anywhere yields no message and leaves nothing |
| Framing.WriteAll | common/tls.cpp:89-98 | for every pattern of partial writes, all bytes in order, or a proper prefix exactly when a write fails |
| Framing.ReadAll | common/tls.cpp:100-109 | for every pattern of partial reads, fills the buffer with the next bytes, failing exactly when too few come |
| Framing.SendMsg | common/tls.cpp:111-120 | appends the frame of the message, or a proper prefix of it exactly when a write fails |
| Framing.RecvMsg | common/tls.cpp:122-138 | returns the next message, or nothing on a short, empty or oversized frame, and the unread rest |
| Framing.Exchange | common/tls.cpp:111-138 | a list of messages sent and received one by one over partial writes and reads is sent whole unless a write fails, and then arrives exactly just when none exceeds 16 MiB |
| LockstepSync.StepKeepsInv | tracker/trackersync.cpp:82-96 | copied, in-flight and unsent data always make up the file, and acknowledgements owed never run out |
| LockstepSync.NeverStuck | tracker/trackersync.cpp:169-184 | until both ends are done, one of them can move |
| LockstepSync.OneAckPerBlock | tracker/trackersync.cpp:82-96 | acknowledgements and records are conserved: each block and the terminator is sent on an acknowledgement of its own, given for one read |
| LockstepSync.PlanIsSafe | tracker/trackersync.cpp:86-93 | no record of an empty or newline-terminated file equals the terminator |
| LockstepSync.KeptIffHarmless | tracker/trackersync.cpp:178-181 | for any split into records, the receiver keeps the whole file exactly when no record reads "Sync Over" |
| LockstepSync.SyncCopiesFile | tracker/trackersync.cpp:82-96 | every interleaving ends within a bound, never blocks early, and leaves an exact copy; before that the copy is a prefix |
| WholeFilePush.PushDeliversRecords | tracker/trackersync.cpp:169-184 | a push of a file the handlers wrote delivers exactly its records |
| Text.SplitText | tracker/tracker.cpp:59-77 | the splitting loop computes the pieces between separators, empty ones kept |
| Text.JoinUndoesSplit | tracker/tracker.cpp:59-77 | joining the pieces gives the text back and no piece holds a separator |
| Text.SplitUndoesJoin | tracker/tracker.cpp:59-77 | fields without separators survive writing and splitting |
| Text.WordsIffNonEmpty | tracker/tracker.cpp:256-260 | extraction by words reads the fields back exactly when none is empty |
| Text.ParseUndoesRender | tracker/tracker.cpp:122-129 | records written line by line are read back exactly |
| Store.DeleteLineBytes | tracker/tracker.cpp:114-161 | the rewrite loop copies every line that does not match |
| Store.DeleteRefinesDrop | tracker/tracker.cpp:706-737 | on files the handlers wrote, deleting lines in the bytes is deleting records |
| Store.AppendRefines | tracker/tracker.cpp:580-583 | appending a line to the bytes appends a record |
| Store.FileNamesClashExactly | tracker/tracker.cpp:426-436 | two different files share a name exactly when one's name ends in _files, _downloading or _downloaded as the other's suffix |
| Directory.DistinctExactly | tracker/tracker.cpp:426-479 | the files of a disk have different names exactly when no two of them clash |
| Directory.BytesAreRecords | tracker/tracker.cpp:242-330 | what the code reads from the bytes, by field or by word, is what the tidy disk holds |
| Directory.DirectoryDeterminesDisk | tracker/tracker.cpp:242-330 | two tidy disks with the same directory are the same disk |
| Directory.EditCommutes | tracker/tracker.cpp:114-161 | appending, rewriting without lines and truncating on the bytes of a named file is the same on its records |
| Scripts.StepIsEdits | tracker/tracker.cpp:359-1046 | what each command does to the disk is its list of edits, in the order of the code |
| Scripts.StepOnBytes | tracker/tracker.cpp:359-1046 | a proper command keeps the disk tidy, and the directory changes by exactly those edits of named files |
| ByteRuns.NamesStayDistinct | tracker/tracker.cpp:426-479 | in every run with proper arguments, the files of each disk have different names and clean lines |
| ByteRuns.PushIsLockstep | tracker/trackersync.cpp:46-97 | pushing files one after the other, however each lockstep transfer interleaves, is copying their records |
| ByteRuns.CommandOnBothDirectories | tracker/trackersync.cpp:46-97 | after a command and any finished pushes of the files it names, both directories are equal and are the edited one |
| ByteRuns.CatchUpOnBytes | tracker/trackersync.cpp:136-184 | finished pushes of the files that land leave the directory of the caught-up disk |
| Clashes.StepDistinctExactly | tracker/tracker.cpp:426-479 | a command keeps file names different exactly when the state before it does not let it act or no file it opens clashes with another |
| Clashes.CreateGroupDistinctExactly | tracker/tracker.cpp:455-494 | create_group does exactly when the group exists or neither of its files takes another's name |
| Clashes.CreateUserDistinctExactly | tracker/tracker.cpp:399-453 | create_user does exactly when the user exists or none of their three files takes another's name |
| Clashes.ClashOverwritesList | tracker/tracker.cpp:471-479 | founding group g_files makes the file list of g read as the founder's name and leaves every other file but the list of groups |
| Clashes.ClashSplitsIndexes | tracker/tracker.cpp:471-479 | after a guarded run, founding such a group makes the two indexes disagree in the bytes |
| Clashes.IndexesAgreeInBytes | tracker/tracker.cpp:644-779 | on the directory of every reachable tracker the two indexes agree line by line |
| Tracker.Tracker.constructor | tracker/tracker.cpp:1396 | start-up loads the caches and creates missing base files |
| Tracker.Tracker.FetchDetails | tracker/tracker.cpp:242-316 | the caches become what the disk says |
| Tracker.Tracker.FetchGroupMembers | tracker/tracker.cpp:318-330 | the member set is the group's file |
| Tracker.Tracker.DeleteLine | tracker/tracker.cpp:114-161 | the file loses exactly the matching lines |
| Tracker.CheckIntegrity | tracker/tracker.cpp:201-216 | reports exactly whether the name is taken by another hash |
| Tracker.ScanFor | tracker/tracker.cpp:163-180 | reports exactly whether some line matches |
| Tracker.ScanFirst | tracker/tracker.cpp:182-199 | returns the first matching line |
| Tracker.ScanSeeders | tracker/tracker.cpp:845-853 | collects the online sharers and the last listed size |
| Tracker.Tracker.UserLogin | tracker/tracker.cpp:359-397 | the whole new state, answer and pushes of login, whose meaning is `Answers.LoginIsRight` |
| Tracker.Tracker.UserCreate | tracker/tracker.cpp:399-453 | the same for create_user, whose meaning is `Answers.SignUpIsRight` |
| Tracker.Tracker.GroupCreate | tracker/tracker.cpp:455-494 | the same for create_group, whose meaning is `Answers.FoundIsRight` |
| Tracker.Tracker.GroupList | tracker/tracker.cpp:496-507 | the same for list_groups, whose meaning is `Guarantees.ListsGroupsWithMembers` |
| Tracker.Tracker.GroupRequestList | tracker/tracker.cpp:509-528 | the same for list_requests, whose meaning is `Guarantees.OwnerSeesRequests` |
| Tracker.Tracker.GroupFileList | tracker/tracker.cpp:530-563 | the same for list_files, whose meaning is `Guarantees.ListsSharedFiles` |
| Tracker.Tracker.GroupJoin | tracker/tracker.cpp:565-610 | the same for join_group, whose meaning is `Answers.JoinIsRight` |
| Tracker.Tracker.GroupAcceptRequest | tracker/tracker.cpp:612-642 | the same for accept_request, whose meaning is `Answers.AcceptIsRight` |
| Tracker.Tracker.GroupFileUpload | tracker/tracker.cpp:644-683 | the same for upload_file, whose meaning is `FileAnswers.UploadIsRight` |
| Tracker.Tracker.GroupStopShare | tracker/tracker.cpp:685-745 | the same for stop_share, whose meaning is `FileAnswers.StopIsRight` |
| Tracker.Tracker.GroupLeave | tracker/tracker.cpp:747-779 | the same for leave_group, whose meaning is `Answers.LeaveIsRight` |
| Tracker.Tracker.SendSHA | tracker/tracker.cpp:781-829 | the same for give_sha, whose meaning is `FileAnswers.ShaIsRight` |
| Tracker.Tracker.SendSeeders | tracker/tracker.cpp:831-865 | the same for give_seeders, whose meaning is `FileAnswers.SeedersAreRight` |
| Tracker.Tracker.SendDetails | tracker/tracker.cpp:867-876 | the same for give_details, whose meaning is `FileAnswers.DetailsIsRight` |
| Tracker.Tracker.GetFullPath | tracker/tracker.cpp:878-905 | the same for send_full_path, whose meaning is `FileAnswers.PathIsRight` |
| Tracker.Tracker.UpdateDownload | tracker/tracker.cpp:907-966 | the same for add_file, whose meaning is `FileAnswers.AddIsRight` |
| Tracker.Tracker.ShowUserDownloads | tracker/tracker.cpp:968-998 | the same for show_downloads, whose meaning is `Ledgers.LedgersMoveInOrder` |
| Tracker.Tracker.CompleteDownload | tracker/tracker.cpp:1000-1027 | the same for complete, whose meaning is `FileAnswers.CompleteIsRight` |
| Tracker.Tracker.UserLogout | tracker/tracker.cpp:1029-1046 | the same for logout, whose meaning is `Answers.LogoutIsRight` |
| View.AppendView | tracker/tracker.cpp:668-677 | appending a line adds exactly its entry to the view of the disk |
| View.DeleteView | tracker/tracker.cpp:706-737 | deleting lines removes exactly their entries from the view |
| Commands.UploadFits | tracker/tracker.cpp:658-666 | the three upload checks together make the new line fit: one name per hash, one hash per name, not listed before |
| Commands.AddFileFits | tracker/tracker.cpp:925-950 | a listed name, or no other line without a hash, and the absence of an own entry make the new line fit |
| Commands.StepKeeps | tracker/tracker.cpp:359-1046 | every safe command keeps the disk invariant, the truth of the cached accounts and owners, and all accounts and owners |
| Commands.CreateGroupExactly | tracker/tracker.cpp:455-494 | create_group keeps the disk in order if and only if the group exists or its creator is registered |
| Commands.UploadExactly | tracker/tracker.cpp:644-683 | upload_file does if and only if it is refused, has a name, or its hash is listed in the group |
| Commands.AddFileExactly | tracker/tracker.cpp:907-966 | add_file does if and only if the user owns the name already, or is a member and the named file is listed or the only one without a hash |
| Commands.StepKeepsExactly | tracker/tracker.cpp:359-1046 | any command keeps the disk in order if and only if it is safe |
| Breakage.UnlistedFilesShareAHash | tracker/tracker.cpp:907-966 | after a guarded run, an unsafe add_file gives one hash two names |
| Breakage.AddBeforeSignUpSplitsIndexes | tracker/tracker.cpp:399-453 | after a guarded run, an add_file without an account and then the sign-up make the indexes disagree |
| Breakage.NamelessUploadGetsTwoNames | tracker/tracker.cpp:644-683 | after a guarded run, a nameless upload lets the next upload of that file give it a second name |
| Breakage.GroupOfAStranger | tracker/tracker.cpp:455-494 | after a guarded run, create_group without an account makes a member nobody registered |
| Replication.ProperTouches | tracker/tracker.cpp:440-444 | a proper command changes only the files it pushes, deletes none, and pushes only files that exist and can be opened |
| Replication.PushesOpenableExactly | tracker/tracker.cpp:426-479 | the files a command pushes can all be opened if and only if the names it makes files for hold no slash |
| Replication.PushEqualizes | tracker/trackersync.cpp:46-97 | pushing the changed files makes an equal sibling disk equal again |
| Replication.RestartExactly | tracker/trackersync.cpp:136-167 | a restart restores replication exactly when every file the tracker is behind on arrives |
| Replication.OutageHeals | tracker/trackersync.cpp:136-167 | in runs with proper arguments, a tracker is behind only on files pushed since its crash, and a restart that receives those brings it level |
| LostUpdates.EarlyRestartLosesAccounts | tracker/tracker.cpp:1396-1399 | after a guarded run, a restart that receives nothing in time leaves both up with different disks, and the next sign-up there erases an account from both |
| Replication.AlwaysReplicated | tracker/trackersync.cpp:46-97 | in runs with proper commands, crashes and restarts, the pair stays replicated (up means equal disks, down means no file the survivor lacks) exactly when every restart receives what it is behind on |
| ByteMachine.EventSimulates | tracker/trackersync.cpp:46-184 | on directories of named bytes, every command with its edits and lockstep pushes, every crash and every restart does what it does in the model |
| ByteMachine.EventCanOccur | tracker/trackersync.cpp:46-184 | and whatever can happen in the model can happen to the directories, with transfers that finish |
| ByteMachine.DirectoriesStayLevel | tracker/trackersync.cpp:46-184 | through every such run the directories are those of the model, and equal whenever both trackers are up exactly when every restart receives what it is behind on |
| LockstepSync.CanFinish | tracker/trackersync.cpp:82-96 | from every state of a copy both ends can be brought to their end |
| Replication.SameAnswerAnywhere | tracker/tracker.cpp:781-905 | after any run with proper arguments and timely catch-ups, a proper command that refreshes first has the same answer and effect at either tracker |
| Replication.CachedAnswersAgreeExactly | tracker/tracker.cpp:565-779 | join, accept, upload, stop_share and leave, which trust their cache, have the same answer, effect and pushes exactly when the disk refuses them, neither cache knows what it takes, or both know alike, for a join also whether it is a repetition |
| StaleCache.MembersAnsweredDifferently | tracker/tracker.cpp:565-745 | a guarded run after which the trackers answer join, upload and stop_share differently |
| StaleCache.RequestsAnsweredDifferently | tracker/tracker.cpp:612-779 | guarded runs after which they answer accept and leave differently |
| Replication.ReachableSystem | tracker/tracker.cpp:359-1046 | every guarded run of the pair keeps the system invariant |
| AllAnswers.EveryAnswerIsRight | tracker/tracker.cpp:359-1046 | at every reachable tracker every command answers and does what the next rows say, and leaves its caches true of the disk, or unchanged if it does not load them |
| Answers.LoginIsRight | tracker/tracker.cpp:359-397 | login succeeds exactly for a registered user whose password hashes like the stored secret; the user is then online, at the given address if they were offline before; nobody else's address changes, and a refusal changes nothing |
| Answers.SignUpIsRight | tracker/tracker.cpp:399-453 | create_user succeeds exactly for a new name; the user is then registered with that secret, online at the given address and without downloads, and for everyone else nothing changes |
| Answers.LogoutIsRight | tracker/tracker.cpp:1029-1046 | logout succeeds exactly for an online user, and takes that user and their address away and nobody else's |
| Answers.FoundIsRight | tracker/tracker.cpp:455-494 | create_group succeeds exactly for a new name; its founder is then the owner and the only member, and no other group's members change |
| Answers.JoinIsRight | tracker/tracker.cpp:565-610 | join_group succeeds exactly for a cached group, and writes and remembers one request, of an outsider who does not repeat one |
| Answers.AcceptIsRight | tracker/tracker.cpp:612-642 | accept_request succeeds exactly for the cached owner and a cached request of a cached user, and turns an outsider's request into membership |
| Answers.LeaveIsRight | tracker/tracker.cpp:747-779 | leave_group succeeds exactly for a member who is not the owner, and takes away their membership and what they share in the group, nothing else |
| FileAnswers.UploadIsRight | tracker/tracker.cpp:644-683 | upload_file succeeds exactly for a member who shares the hash already or whose file, under the group's name for the hash, has no other hash's name; a new file is then shared, give_seeders tells its size and send_full_path its path |
| FileAnswers.StopIsRight | tracker/tracker.cpp:685-745 | stop_share succeeds exactly for a cached user who is a member, takes exactly their share of the file from both lists, and send_full_path then tells nothing |
| FileAnswers.SeedersAreRight | tracker/tracker.cpp:831-865 | give_seeders names exactly the online sharers; with any, the size is the one on the last listing of the file, otherwise empty |
| FileAnswers.OneSizeIsTheSize | tracker/tracker.cpp:849-862 | when all listings of the file carry one size, that is the size answered |
| FileAnswers.ShaIsRight | tracker/tracker.cpp:781-829 | give_sha tells a member the hash on the file's first listing, or nothing if it has none, and logs the attempt; it tells anyone else nothing and changes nothing |
| FileAnswers.DetailsIsRight | tracker/tracker.cpp:867-876 | give_details tells an online user's address on record and an empty one for anyone else |
| FileAnswers.PathIsRight | tracker/tracker.cpp:878-905 | send_full_path tells the path on the user's only entry for the file, or nothing without one |
| FileAnswers.AddIsRight | tracker/tracker.cpp:907-966 | add_file shares the file under the hash and size of its first listing and with the path given, unless the user owns the name already, when it changes nothing |
| FileAnswers.CompleteIsRight | tracker/tracker.cpp:1000-1027 | complete takes the file from the downloads in progress and puts it at the end of the completed ones, for this user only |
| Guarantees.IndexesAgree | tracker/tracker.cpp:644-779 | a user is listed for a file of a group exactly when their own list has the entry, in every reachable state |
| Guarantees.NameAndHashDetermineEachOther | tracker/tracker.cpp:163-216 | within a group name and hash determine each other and no user is listed twice for a file |
| Guarantees.MembershipSound | tracker/tracker.cpp:455-494 | owners are members, members and online users registered, requests from outsiders to existing groups |
| Guarantees.OwnerForever | tracker/tracker.cpp:757-760 | through any further guarded run, with crashes and restarts, a group keeps its owner, and the owner their membership, at every tracker that is up |
| Guarantees.LogoutTakesOffline | tracker/tracker.cpp:1029-1046 | logout answers whether the user was online and leaves no line for them |
| Guarantees.SeedersAreUsable | tracker/tracker.cpp:831-905 | give_seeders returns exactly the online sharers; for each, give_details answers the registered address and send_full_path a path on record |
| Guarantees.ShaIsTheHash | tracker/tracker.cpp:781-829 | give_sha answers the one hash that every listing of the file carries |
| Guarantees.AcceptedUploadIsShared | tracker/tracker.cpp:644-683 | an accepted upload leaves the user listed and sharing a file with that hash |
| Guarantees.ListsGroupsWithMembers | tracker/tracker.cpp:496-507 | list_groups answers exactly the groups that have a member |
| Guarantees.OwnerSeesRequests | tracker/tracker.cpp:509-528 | list_requests answers the owner exactly the users with a request on disk, none a member, and anyone else nobody |
| Guarantees.ListsSharedFiles | tracker/tracker.cpp:530-563 | list_files answers exactly the files somebody shares in the group |
| Ledgers.LedgersMoveInOrder | tracker/tracker.cpp:781-1027 | among proper commands only a member's give_sha puts a registered user's file in progress, only complete takes it out and completes it, and nothing undoes a completion |
| Ledgers.LedgersLast | tracker/tracker.cpp:968-1027 | through any further guarded run, at every tracker that is up, a completed file stays completed and one in progress stays so until its complete |
| Accounts.SecretSplits | tracker/tracker.cpp:367-370 | a stored secret splits back into salt and hash |
| Accounts.NoColonNoSplit | tracker/tracker.cpp:367-370 | a stored secret without a colon serves whole as salt and as hash |
| Accounts.LoginForever | tracker/tracker.cpp:359-453 | after a proper sign-up and any further run of the pair with proper arguments and timely catch-ups, a login at any up tracker succeeds exactly when the password hashes like the original |
| Accounts.AccountReadBackExactly | tracker/tracker.cpp:256-260 | an account line is read back as name and secret if and only if the name is not empty; otherwise the secret becomes the name |
| Requests.RequestsAreCovered | tracker/tracker.cpp:565-642 | in every run of a tracker without pushes, restarts included: pending file within cache within pending file plus members, no member pending, and the disk tidy |
| Requests.StandingMovesInOrder | tracker/tracker.cpp:565-642 | a user moves only from stranger to request to member to stranger, or becomes a member by creating the group |
| Requests.JoinIsNeverLost | tracker/tracker.cpp:565-610 | at a tracker without pushes, a join answered positively leaves a request on disk or finds a member |
| StaleCache.StaleCacheAdmitsStranger | tracker/tracker.cpp:612-642 | a guarded run of two trackers after which an acceptance admits a user without any request |
| StaleCache.AdmitsStrangerExactly | tracker/tracker.cpp:612-642 | that happens exactly when the cache holds a request the disk does not, for a user who is no member |
| StaleCache.StaleCacheLosesRequest | tracker/tracker.cpp:565-610 | a guarded run of two trackers after which a join is answered positively and nothing is written |
| StaleCache.JoinLostExactly | tracker/tracker.cpp:565-610 | that happens exactly when the cached owner is offline and the cache holds a request the disk does not, for a user who is no member |

## Left out

- Sockets, TLS handshakes, certificates and liveness probes: they appear as nondeterministic success or failure.
- SHA-1, SHA-256 and salt generation: arbitrary functions and parameters.
- The interactive loop, printing and the request wrappers of the peer; only the login gate is kept, as a guard.
- Download.DownloadKernel: runs alone and against a finite sequence of connects; the interleaving of kernels is in the steps of `Download`, and unbounded retry in `Download.RunsAreBounded`.
- Handlers running at the same time inside one tracker, and commands at both trackers at the same moment: the code gives no useful guarantee for them.
- Seeders whose own copy is partial: bytes past a chunk may then be filler.
- Runs with improper arguments: a missing name is read as an empty one, and a name with a slash makes the tracker read from a file it could not open and stop; the exact conditions are in the rows above.
- Download.StepKeepsInv: a thread that starts on seeder -1 indexes the seeder list out of range; `Planning.StartDownload` says exactly when that happens, and the kernels here begin on a seeder.
- The temporary file through which lines are deleted, which a catch-up might also push.
- The order of names in list replies, which follows a hash map in the source; replies are sets here.
- Selection.CalcChunk: the sort is any permutation ordered by list length, since its comparison function does not fix the order of equals.
- LockstepSync.SyncCopiesFile: assumes reliable channels, that one read returns one record, and that a write is split into full records and a last shorter one.
