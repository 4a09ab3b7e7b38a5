# A verified model of a Trojan proxy with traffic accounting

The proxy counts each user's bytes, reports them to a master database over an
unreliable channel, upgrades itself in place, migrates its database from
several processes at once, and frames its own protocols on byte streams. This
project models those parts in Dafny and proves what they promise, over every
run, every interleaving and every input.

`dafny verify dfyconfig.toml` checks everything.

## How it is organised

**Traffic accounting.** `SenderProtocol` is one proxy process: runtime counters,
the queued and the frozen batch in memory, and the outbox file both are
checkpointed to. Each event is one atomic action, and a crash may fall between
any two. A save may fail before its rename or after it, so that the file holds
either state. `Accounting` puts any number of such senders next to a network
that loses, delays and repeats requests and a master whose transaction writes a
receipt together with the increments. `AccountingProofs` shows that every step
keeps the invariant; `AccountingTheorems` states what follows for every run, and
`AccountingHistory` follows a sender's saves through a run. That bytes are kept
would hold of a system that does nothing, so `SenderEffects` and
`AccountingProgress` prove that they move: what each event achieves and exactly
when, what the master answers and exactly when, and that bytes counted get into
their rows when nothing goes wrong. `DataPlaneReporter`, `NodeSync`,
`MemoryAuthenticator`, `TrafficOutbox` and `MasterDatabase` are the code:
objects whose methods return the protocol events they amount to, with traffic
arriving and users coming and going between their statements, or equal the
handler the protocol uses. `AccountingLift` closes the gap: a whole round of
such an object, started in any reachable state, is part of a run of the whole
system, with whatever the others do in between, so the books balance where it
ends. `EmbeddedSync` is the variant without a network, where counters are read,
committed and subtracted while traffic goes on, users come and go and rows are
reset; `EmbeddedTheorems` has its balance over every run and `EmbeddedServer`
its code.

**Upgrades and certificates.** `Upgrade` is a step system: every step is one
disk operation or one look at the world, an operation may be reported as failed
before or after it took effect, and the process may die between any two.
`UpgradeProofs` shows what every step keeps, `UpgradeTheorems` what holds of
every run of upgrades and recoveries, `HealthyRecovery`, `HealthyRuns` and
`UpgradeLimits` where that ends. `UpgradeOutcomes` says how upgrades and
recoveries end on a disk that works, for each way the checks of the host may
come out, and `UpgradeAnswers` that nothing is committed without an answer of
the services. `UpgradeManifest` says which manifests are accepted, and
`UpgradeRun` is the code, whose methods return the steps they amount to.
`CertificateStore` does the same for a version store behind a `current` link.

**Migrations.** `Migrations` is a step system of any number of processes, one
lease row and one list of migrations; `MigrationRunner` is the code of one
process, with the other processes, the clock and all renewal loops at work
between its statements.

**Byte streams.** `RewindStream` and `RewindReading` are the rewindable reader,
`AddressCodec`, `TrojanPackets` and `TrojanHandshake` the framing on top of it
(written to a `Connection`), `StickyMux` the connection that holds back control
frames, and `Geodata` the scanner that skips through a protobuf file.

**When nothing fails.** Disks, connections and other processes may fail or
interfere at any point. So that code cannot hide behind that, each object has a
constant that says whether its surroundings can: `reliable` for the outbox file,
the certificate directory and the connections, `host` for the upgrade's disk and
checks, `alone` for the migration runner. Contracts say what may fail because of
the surroundings, and what must succeed if they are sound.

**Users and rules.** `Eligibility` says who may connect and that all three ways
of deciding it agree; `RuleOrder` rearranges rule texts.

## What turned out not to hold, and exactly when it does

- A delivery repeated after the receipt was cleaned up books the batch again
  exactly when the rows can still take it: `RepeatBooksIff`,
  `LateRetryBooksAgain`. Receipts are kept for 30 days.
- The node-sync handler answers success to a body that does not decode, without
  a receipt: `NodeAnswersWithoutBooking`. A sender that took this for its batch
  would lose it: `EmptyAnswerLosesBatch`. The data-plane handler never does this.
- The dropped total can fall: `AccountingHistory.DroppedFallsIff` says that this
  happens exactly at a crash after a refused checkpoint that had reached the
  file, with the user removed since, no save adopted since and fewer bytes
  counted again. `RemovedBytesMayReturn` is such a run.
- Validation does not keep an artifact from being aimed at the journal or the
  audit log. An upgrade that nothing else stands in the way of is safe in all it
  can do exactly when neither is a target and they are not the same file
  (`UpgradeLimits.WriteAheadIff`). `LogAsTarget`, `JournalAsTarget` and
  `JournalAsLog` are runs of the code's steps into an unsafe state, and
  `LogTargetNotRestored` shows recovery returning with that target changed.
- Recovery from a healthy journal ends in a mixture of old and new targets
  exactly when the services answer at last, after attempts cut short before had
  put back some targets and not all (`MixtureIff`); a commit is then logged for
  it. Every upgrade of two targets that nothing stands in the way of has such a
  run from its start (`MixtureFromStart`), and with one target a commit may be
  logged with the old file back (`HealthyJournalMayCommitOld`).
- A rollback brings a target back exactly when it had no setuid, setgid or
  sticky bit (`RecoveryIsAllOld`): only permission bits are saved.
- Write-ahead safety does not need the distinct-target check (`RunIsWriteAhead`
  does not ask for it), because all backups are taken before the first switch.
  That all artifacts are in place after success holds exactly when artifacts
  with the same target agree (`AllNewIff`, `EqualTargetsNotAllNew`).
- A certificate renewal whose directory sync fails after the swap goes on to
  delete the version it has just made current. A matching pair is served at
  every point of any number of renewals exactly when no such removal removes a
  file (`ServesThroughoutIff`); the ignored errors of the removal count here.
  And a renewal that succeeds makes the new pair live exactly when both stable
  paths share a directory (`Directory.WriteCertificateFiles`).
- The geodata scanner lands on the next entry exactly when that lies at a
  position the file system allows (`SkipLandsIff`), and it visits exactly the
  entries of the file if and only if all skips do (`VisitsEntriesIff`). A
  refused seek makes it return bytes that are no entry (`RefusedFile`).
- The geodata scanner ends exactly when following the skips from the start gets
  to an answer before it gets to an entry for the second time, and goes on for
  ever exactly when the first entry is one of some entries that are all skipped,
  each to another of them (`EndsIff`). Thirteen bytes are enough for that
  (`EndlessFile`); a length above 2^63 - 1 alone is not (`BackwardsEnds`).
- A traffic report is the protocol's event exactly when neither counter wraps
  (`Reporter.AddTraffic`).
- A rewind starts over from the mark exactly when every fetched byte was
  recorded (`RewindStartsOverIff`), and changing the buffer size keeps the
  upcoming bytes exactly when no replay is under way (`ChangingModeKeepsIff`).
- An address survives exactly when its name has at most 253 bytes and its port
  at most 16 bits (`AddressRoundTripIff`). Names of 254 and 255 bytes (modulo
  256) make the reader panic, and other longer ones are misread.
- A mux frame keeps its place in its stream exactly when it closes the stream or
  nothing that closes it is held back (`WriteKeepsOrderIff`), and a stream keeps
  its order exactly when no frame was written behind its closing frame without
  payload in between (`StreamKeepsOrderIff`). That opening frames come first is
  not needed.
- Closing the mux connection sends everything that was held back unless just one
  frame was held and no padding was drawn: that frame goes back into its queue
  (`CloseFlushesIff`).
- A packet reads back as itself, or as one error, exactly when its payload has
  less than 65536 bytes (`PacketReadsBackIff`). Of a longer one the reader takes
  what the length field says modulo 65536, and the rest for what follows
  (`PacketReads`).

## What is assumed

- Sync ids and lease tokens are never drawn twice, and a sync id has 32 digits.
  Every upgrade gets a new transaction directory.
- A request is retried within the 30 days for which its receipt is kept: a later
  delivery of a booked request is no step of the accounting system.
- A counter does not pass 2^64 - 1 between two collections, and each counter has
  one consumer. All processes that migrate one database have the same list and
  see the same clock.
- The outbox is configured. Without one the reporter keeps its batches in memory
  only, and that mode is not modelled.
- Maps are values: that a pending map is not shared with the live queue shows in
  the model as two separate values, not as the absence of an alias.
- Traffic that a connection still adds to a user after the user was removed from
  the authenticator is not counted as generated by a sender. In `EmbeddedSync`
  it is counted, and lost. A sender knows users by hash: one removed and added
  again within a round is to it the same user.
- A journal's encoding can be told from any other file content and decodes to
  what was encoded. Temporary files, directories and the umask are not modelled.
- Of a connection that is read, empty reads without an error come only finitely
  often. At the mux connection only one caller writes.
- The text of an IP address is at most 253 bytes long.

## Model

| member | source | states |
|---|---|---|
| `AccountingTheorems.Conservation` | tunnel/trojan/data_plane_traffic.go:139-222 | after every run with crashes, ambiguous saves, lost, late and repeated requests: generated = counters + queued or frozen and not booked + booked + dropped, per sender, user and direction; and booked = row + cleared + unknown users |
| `AccountingTheorems.TotalConservation` | internal/webserver/data_plane_traffic.go:35-62 | the same summed over all senders of one master |
| `AccountingProofs.StepKeepsInv` | internal/nodesync/manager.go:391-528 | every step of senders, network and master keeps the whole invariant: one batch per key, unbooked requests still held, receipts for all bookings within retention, disk within reach of memory, books balanced |
| `AccountingProofs.RunKeepsInv` | internal/nodesync/manager.go:391-528 | and so does every run |
| `AccountingProofs.InitialInv` | internal/trafficoutbox/outbox.go:104-126 | a system in which nothing has happened yet, with any number of machines, satisfies it |
| `AccountingProofs.LocalBalanced` | statistic/memory/memory.go:197-215 | one event of a sender moves bytes between its places without making or losing any, however its save ends |
| `AccountingProofs.OwnCoherent` | internal/trafficoutbox/outbox.go:173-179 | how far the outbox file can be from memory after saves that failed before or after the rename |
| `AccountingProofs.HandleMeaning` | internal/webserver/data_plane_traffic.go:35-62 | a delivery books its whole batch together with a new receipt, or changes nothing |
| `AccountingProofs.BookedOnce` | internal/webserver/nodes.go:380-405 | within the retention period a delivery that books finds the key unbooked, and the sender still holding exactly this batch in memory and on disk |
| `AccountingTheorems.SameKeySameBatch` | internal/nodesync/manager.go:421-460 | across restarts, two requests with one sync id are the same request |
| `AccountingTheorems.BookingsCount` | internal/webserver/nodes.go:380-405 | the number of bookings of a key in a run is whether it is booked at the end less whether it was at the start |
| `AccountingTheorems.BookedAtMostOnce` | internal/webserver/data_plane_traffic.go:35-62 | each sync id is booked at most once, and exactly once if any request with it was answered with success |
| `AccountingTheorems.LossOnlyFromCounters` | statistic/memory/memory.go:44-48 | bytes are dropped only by removing a user, exactly its counter, or by a crash, at most the counters |
| `AccountingHistory.DroppedFallsIff` | internal/trafficoutbox/outbox.go:173-179 | over every run from the start: the dropped total of a user falls exactly at a crash when the last save to reach the file was a refused checkpoint of this user, the user was removed since, and fewer bytes were counted again than it had read |
| `AccountingHistory.HistoryExplains` | internal/trafficoutbox/outbox.go:173-179 | at every point of a run the history of saves says exactly how file and memory differ |
| `AccountingTheorems.RemovedBytesMayReturn` | internal/trafficoutbox/outbox.go:173-179 | a run in which that happens |
| `AccountingTheorems.RepeatBooksIff` | internal/database/models.go:82-106 | a repeated delivery books again exactly when its receipt is gone and the rows accept it |
| `AccountingTheorems.LateRetryBooksAgain` | internal/database/models.go:82-106 | after the retention period and a cleanup the receipt of a booked batch is gone, and a retry on either channel books it again exactly when the rows can take it |
| `AccountingTheorems.NodeAnswersWithoutBooking` | internal/webserver/nodes.go:364 | the node handler answers a non-empty report with success and no receipt exactly when the body does not decode and the users can be listed |
| `AccountingTheorems.DataPlaneAnswersOnlyBooked` | internal/webserver/data_plane_traffic.go:27 | a successful answer of the data-plane handler means that the receipt exists |
| `AccountingProgress.RepeatIsAnswered` | internal/webserver/data_plane_traffic.go:41-43 | a request delivered again once its batch is booked is answered with success, and nothing else changes, whatever the rate is by now |
| `AccountingProgress.FirstIsAnsweredIff` | internal/webserver/nodes.go:376-405 | a first delivery is answered with success exactly when the rate is valid and every stored counter stays within 63 bits; it then adds exactly the bytes and the charge of every known user and leaves a receipt, and otherwise changes nothing |
| `AccountingProgress.TroubleIsNotAnswered` | internal/webserver/nodes.go:405-423 | an error in the transaction leaves no trace; one in the listing behind it keeps what was booked, and only the answer is lost |
| `AccountingProgress.BatchGoes` | internal/nodesync/manager.go:449-528 | a sent batch that was booked lately, or that the rows can take, is booked and acknowledged by one more delivery: afterwards nothing is pending in memory or on disk, and the queue is as it was |
| `AccountingProgress.CountedBytesArrive` | internal/nodesync/manager.go:391-528 | when nothing goes wrong: checkpoint, freeze, send, delivery and acknowledgement add what a counter received to the upload and what it sent to the download in its user's row, together with all that was queued, and leave the sender empty |
| `AccountingProgress.ResetClearsRows` | internal/webserver/workers.go:73-76 | the monthly reset keeps every user, with nothing used |
| `AccountingTheorems.EmptyAnswerLosesBatch` | internal/webserver/nodes.go:364 | acknowledging such an answer breaks the balance |
| `AccountingTheorems.StoredCountersStayInRange` | internal/webserver/traffic_values.go:79-111 | over every history stored counters stay in the signed 64-bit range, and at rate 1 with resets used = upload + download |
| `AccountingLift.TraceLifts` | internal/nodesync/manager.go:391-460 | a sender's trace up to its answer, with fresh keys, happens in the whole system as it does alone |
| `AccountingLift.RoundConserves` | internal/nodesync/manager.go:366-568 | a whole round of the code started in any reachable state, from collecting over the answer and its acknowledgement to the user updates, ends in a reachable state, and the books balance there |
| `AccountingLift.OwnRuns` | internal/nodesync/manager.go:366-568 | every run of the whole system is to each sender a run of the protocol |
| `AccountingLift.RoundAmongOthers` | internal/nodesync/manager.go:366-568 | in every run of the system in which a sender does the events of its round, with anything by the others, the network and the master in between, it ends where its code left it and the books balance |
| `AccountingLift.Undisturbed` | tunnel/trojan/data_plane_traffic.go:139-222 | no step of another takes away what a sender can do next, unless it draws the same key |
| `AccountingLift.TraceConserves` | tunnel/trojan/data_plane_traffic.go:139-222 | where a trace up to the answer ends, the state is reachable and balanced |
| `AccountingLift.AnswerConserves` | tunnel/trojan/data_plane_traffic.go:177-192 | the same for an answered request and its acknowledgement |
| `TrafficOutbox.RecordRoundTrip` | internal/trafficoutbox/outbox.go:55-102 | the record of a state is valid exactly when the state is well formed, and reads back as it |
| `TrafficOutbox.ReadBack` | internal/trafficoutbox/outbox.go:55-102 | a record is accepted exactly when it is what a sender would write for the state it means, in one of the two known versions |
| `SenderEffects.CheckpointMovesIff` | tunnel/trojan/data_plane_traffic.go:199-219 | with a writable outbox a checkpoint queues the bytes, received as upload and sent as download, and starts the counter again, or changes nothing; the latter exactly for an empty hash or a sum beyond 64 bits |
| `SenderEffects.RefusedIff` | tunnel/trojan/data_plane_traffic.go:148-219 | so a save that is refused with a writable outbox is such a checkpoint, or a freeze without a key, and nothing else |
| `SenderEffects.SoundRuns` | internal/trafficoutbox/outbox.go:55-102 | every state of every run of a sender is one the outbox accepts, with 64-bit counters |
| `SenderEffects.RestartKeepsOutbox` | internal/trafficoutbox/outbox.go:104-126 | after a crash and a restart exactly what the outbox holds is left; one that cannot be read is kept and not used |
| `SenderEffects.EverythingQueued` | internal/nodesync/manager.go:391-417 | an undisturbed collection that empties the counters has queued every byte that was in them, on top of what was queued |
| `TrafficOutbox.OutboxFile.Save` | internal/trafficoutbox/outbox.go:128-181 | a reported success stores the record, a failure before the rename keeps the old one, and one behind it leaves the new one; a valid record is stored if nothing fails |
| `TrafficOutbox.OutboxFile.Load` | internal/trafficoutbox/outbox.go:104-126 | what was stored, the empty state when there is no file, an error when it is unreadable or invalid |
| `TrafficOutbox.OutboxFile.Remove` | internal/trafficoutbox/outbox.go:183-198 | a reported success leaves no record; a reported failure leaves either |
| `MemoryAuthenticator.Authenticator.AddUser` | statistic/memory/memory.go:258-272 | a new user starts at zero; a known one is refused and keeps its counter |
| `MemoryAuthenticator.Authenticator.DelUser` | statistic/memory/memory.go:274-282 | exactly this user and its counter are gone |
| `DataPlaneReporter.Reporter.AddTraffic` | statistic/memory/memory.go:116-121 | reporting bytes is the protocol's traffic event exactly when neither 64-bit counter wraps |
| `EmbeddedServer.AdminServer.SubtractTraffic` | statistic/memory/memory.go:128-143 | both counters of one user object fall and stop at zero, and no other's |
| `DataPlaneReporter.Reporter.constructor` | tunnel/trojan/data_plane_traffic.go:81-94 | a restart holds what the outbox file holds, or works no more |
| `DataPlaneReporter.Reporter.CheckpointUser` | tunnel/trojan/data_plane_traffic.go:199-219 | the protocol's checkpoint event: durable before the counter is cleared, memory rolled back on failure |
| `DataPlaneReporter.Reporter.Collect` | tunnel/trojan/data_plane_traffic.go:195-222 | with traffic arriving and users coming and going at any point, a run of checkpoints that ends refused, because of the disk only if that can fail, or, if nobody interferes, leaves all counters empty |
| `DataPlaneReporter.Reporter.FreezeBatch` | tunnel/trojan/data_plane_traffic.go:148-161 | the protocol's freeze event: the queue becomes the pending batch, or memory is as before |
| `DataPlaneReporter.Reporter.AcknowledgeBatch` | tunnel/trojan/data_plane_traffic.go:186-192 | the protocol's acknowledge event, with the batch kept when the save fails |
| `DataPlaneReporter.Reporter.Flush` | tunnel/trojan/data_plane_traffic.go:139-193 | one round, with traffic and user changes at any point, is a run of the protocol: checkpoints, then perhaps freeze, send, acknowledge. Success means that a pending batch, or else the queue, was sent and acknowledged, with nothing left pending, and, undisturbed, that every byte counted or queued at the start was in it or is queued behind it; every failure is justified and keeps a pending batch |
| `NodeSync.ValidateUserHashes` | internal/nodesync/manager.go:123-139 | accepts exactly the valid lists |
| `NodeSync.AcceptedIsHex` | internal/nodesync/manager.go:123-139 | in a valid list all strings are distinct and have 56 hexadecimal digits of either case |
| `NodeSync.BoundedSyncBackoff` | internal/nodesync/manager.go:141-154 | the interval doubled per failure, capped at ten minutes, plus at most a fifth |
| `NodeSync.Manager.constructor` | internal/nodesync/manager.go:266-278 | a restart holds what the outbox file holds, or works no more |
| `NodeSync.Manager.CheckpointUser` | internal/nodesync/manager.go:394-410 | the protocol's checkpoint event on one of several authenticators |
| `NodeSync.Manager.Collect` | internal/nodesync/manager.go:391-417 | with traffic arriving and users coming and going at any point, a run of checkpoints that ends refused, because of the disk only if that can fail, or, if nobody interferes, empties every authenticator |
| `NodeSync.Manager.FreezeBatch` | internal/nodesync/manager.go:421-440 | the protocol's freeze event |
| `NodeSync.Manager.AcknowledgeBatch` | internal/nodesync/manager.go:514-528 | the protocol's acknowledge event |
| `NodeSync.Manager.Reconcile` | internal/nodesync/manager.go:531-568 | every authenticator ends with exactly the master's users, those known before keep their counters |
| `NodeSync.Manager.PerformSync` | internal/nodesync/manager.go:366-568 | one round, with traffic and user changes at any point, is a run of the protocol. Success means a valid answer, that a pending batch, or else a non-empty queue, was sent and acknowledged, that nothing is pending, that the queue is empty unless an older batch was pending, and, undisturbed, that every byte counted or queued at the start was in the batch sent or is queued behind the older one; then listed users are added and only unlisted ones removed. Every failure is justified and keeps a pending batch |
| `MasterDatabase.BuildIncrements` | internal/webserver/traffic_values.go:46-70 | all increments of a batch, or an error exactly when one is out of range |
| `MasterDatabase.PersistIncrement` | internal/webserver/traffic_values.go:79-111 | one guarded row update; unknown users are skipped, an overflow is an error and changes nothing |
| `MasterDatabase.PersistAll` | internal/webserver/traffic_values.go:79-111 | updating users one at a time in any order gives the same rows |
| `MasterDatabase.SettleBatch` | internal/webserver/nodes.go:391-404 | all rows by their increments, or nothing at all |
| `MasterDatabase.RoomIsEnough` | internal/webserver/traffic_values.go:46-111 | a batch can be settled exactly when the rate is valid, each user's sum and charge fit in 63 bits, and the known users' stored counters are sound and have room |
| `MasterDatabase.PostTransacts` | internal/webserver/data_plane_traffic.go:35-62 | a transaction without a fault answers success to a key with a receipt, books a new one in full when there is room, and refuses it without a trace when there is not |
| `MasterDatabase.Master.HandleDataPlane` | internal/webserver/data_plane_traffic.go:25-73 | the handler is the function the accounting protocol uses; a malformed report is refused, a key with a receipt is answered with success and changes nothing, and a new one is booked at rate 1 exactly when there is room |
| `MasterDatabase.Master.HandleNodeSync` | internal/webserver/nodes.go:364-435 | the same for the node handler at the node's rate, with success for an empty or undecodable body, and an error after the commit when the users cannot be listed |
| `EmbeddedSync.ActKeepsInv` | internal/webserver/workers.go:100-169 | every action of the round, of connections, of users who come and go and of resets keeps it that an unstored reading never exceeds its counter or what its removed user lost, that snapshots are the readings' sums, and that what is due on a counter is still there |
| `EmbeddedSync.NeverSaturates` | statistic/memory/memory.go:128-143 | the subtraction takes off exactly the reading while its user is there, and once the user was removed changes nothing that is still counted or lost |
| `EmbeddedTheorems.DatabaseGainsReadings` | internal/webserver/workers.go:141-156 | a commit adds to each known user the sum of that user's readings over all authenticators |
| `EmbeddedTheorems.FailedSyncChangesNothing` | internal/webserver/workers.go:157-159 | over any run in which nothing is committed, each counter whose user stays holds what it held plus all that arrived, and the rows change only by others |
| `EmbeddedTheorems.LeaveConserves` | statistic/memory/memory.go:274-282 | of a user removed at any point of a round exactly the bytes no row has are lost |
| `EmbeddedTheorems.ResetEmptiesRows` | internal/webserver/workers.go:73-76 | a reset keeps every row, with nothing used |
| `EmbeddedTheorems.EmbeddedConservation` | internal/webserver/workers.go:73-169 | over every interleaving of traffic, user changes, resets and rounds: counters (less what rows already have), rows and bytes lost with removed users grow by exactly the bytes that arrive, but for committed bytes of users without a row and bytes cleared from rows |
| `EmbeddedServer.OneToZero` | internal/webserver/workers.go:165-167 | if every counter is at zero or at its own reading, subtracting one reading keeps it so for the readings that are left, until all are at zero |
| `EmbeddedServer.StoresIff` | internal/webserver/workers.go:109-160 | with every counter read, the transaction goes through exactly when the rows have room for what is counted, and then adds to each known user's row what is counted for that user over all authenticators |
| `EmbeddedServer.ReceivedIsUpload` | internal/webserver/workers.go:109-133 | what the proxy received from a user is that user's upload |
| `EmbeddedServer.AdminServer.Snapshot` | internal/webserver/workers.go:109-133 | the snapshot loops over authenticators and the users each lists when it is reached, with anything done by others even between two loads, are a run of the model's actions that, undisturbed, reads every counter, or stops because a sum does not fit in 64 bits |
| `EmbeddedServer.AdminServer.AddTraffic` | statistic/memory/memory.go:116-121 | reporting bytes to a user object, removed or not, is the model's action exactly when neither 64-bit counter wraps |
| `EmbeddedServer.AdminServer.AddUser` | statistic/memory/memory.go:258-272 | a new user object at zero as the model's action; a known hash is refused |
| `EmbeddedServer.AdminServer.DelUser` | statistic/memory/memory.go:274-282 | the object is cleared and forgotten by its authenticator, as the model's action |
| `EmbeddedServer.AdminServer.SyncOnce` | internal/webserver/workers.go:100-169 | the whole round, with traffic, user changes and row changes by others at any point, is a run of the model's actions, and in a failed round nothing was committed; undisturbed, it succeeds exactly when the database can take all that is counted, and then every counter is at zero and every known user's row has gained what was counted |
| `UpgradeManifest.ValidateManifest` | cmd/trojan/actions/upgrade.go:351-382 | accepts exactly manifests with a version and at least one artifact, each with a source, an absolute target other than the root and, once cleaned, its own, a SHA-256 digest and a valid mode |
| `UpgradeProofs.StepKeepsInv` | cmd/trojan/actions/upgrade.go:246-325 | every step of upgrade, rollback and recovery, every fault and every crash keeps the invariant: backups that reproduce the targets before the journal names them, and a journal until targets are old or the commit is logged |
| `UpgradeTheorems.RunIsWriteAhead` | cmd/trojan/actions/upgrade.go:271-308 | in every state any run of upgrades, crashes and recoveries reaches, a target that differs from what the upgrade found means durable backups of all targets or a logged commit; targets need not be distinct |
| `UpgradeTheorems.JournalGoesLast` | cmd/trojan/actions/upgrade.go:299-325 | in every reachable state the journal is removed only once it says that the logged commit is complete, or once every target is put back |
| `UpgradeLimits.WriteAheadIff` | cmd/trojan/actions/upgrade.go:359-373 | of an upgrade nothing else stands in the way of: safe in all it can do exactly when no target is the journal or the audit log, and these differ |
| `UpgradeLimits.LogAsTarget` | cmd/trojan/actions/upgrade.go:267-270 | with the audit log as a target, a rejected upgrade leaves it changed with no way back |
| `UpgradeLimits.JournalAsTarget` | cmd/trojan/actions/upgrade.go:582-590 | with the journal as a target, switching removes the record of the backups |
| `UpgradeLimits.JournalAsLog` | cmd/trojan/actions/upgrade.go:310-316 | with the journal as audit log, the line about a failed rollback makes it unreadable |
| `UpgradeLimits.LogTargetNotRestored` | cmd/trojan/actions/upgrade.go:746-762 | with the audit log as a target, recovery succeeds and returns with that target changed |
| `UpgradeRun.Disk.Install` | cmd/trojan/actions/upgrade.go:592-635 | the target is replaced as a whole, also when an error is reported after the rename |
| `UpgradeRun.Disk.WriteJournal` | cmd/trojan/actions/upgrade.go:823-862 | the journal is the old or the new one, never a part |
| `UpgradeRun.Upgrader.StageArtifacts` | cmd/trojan/actions/upgrade.go:445-497 | copies checked against their digests, as the staging steps of the system, copies cut short included; failure leads to a rejection |
| `UpgradeRun.Upgrader.BackupTargets` | cmd/trojan/actions/upgrade.go:552-580 | a backup or a note of absence for each target, as the backup steps of the system |
| `UpgradeProofs.BackingKeepsInv` | cmd/trojan/actions/upgrade.go:552-580 | these backups reproduce content, permission bits or absence of every target |
| `UpgradeRun.Upgrader.Apply` | cmd/trojan/actions/upgrade.go:582-590 | targets switched one by one, as the switching steps of the system, for any targets; a failure leads to the rollback |
| `UpgradeRun.Upgrader.Rollback` | cmd/trojan/actions/upgrade.go:675-709 | all targets last first, going on after failures, then services, as the restoring steps of the system |
| `UpgradeRun.Upgrader.Recover` | cmd/trojan/actions/upgrade.go:711-762 | recovery as steps of the system that stage nothing, and with the answers of this host; it succeeds exactly when it reaches the new upgrade, and a journal that cannot be read stops it with nothing changed |
| `UpgradeTheorems.RecoveryIsAllOld` | cmd/trojan/actions/upgrade.go:711-762 | from a prepared or switched journal, however often recovery crashes, fails and starts over: once it is through, no journal is left and every target is old, up to special mode bits, which alone are lost |
| `UpgradeTheorems.NothingStagedBefore` | cmd/trojan/actions/upgrade.go:246-249 | until recovery is through, no file is created or changed but the interrupted upgrade's targets, its log and the journal |
| `UpgradeOutcomes.UpgradeEnds` | cmd/trojan/actions/upgrade.go:251-325 | on a disk that works an upgrade nothing stands in the way of ends in one way, given by the checks, with one line in the log that says which: refused, with every target exactly as it was; committed, with no journal and the checked artifacts in place; or rolled back, with every target put back, no commit, and the journal kept only if the old services do not answer |
| `UpgradeOutcomes.RecoveryEnds` | cmd/trojan/actions/upgrade.go:711-762 | on a disk that works a committed upgrade is forgotten, a healthy one whose services answer is committed, and any other is put back; recovery then gets through, unless the old services do not answer, and the log says what was done |
| `UpgradeOutcomes.ThroughIsTold` | cmd/trojan/actions/upgrade.go:732-762 | on any disk a recovery that found a journal and gets through has logged what it did |
| `UpgradeOutcomes.EveryRestoreIsTried` | cmd/trojan/actions/upgrade.go:675-700 | a restore that fails does not keep the others from being put back: whatever comes of each, all are tried, last first, and each target is put back unless its own restore failed before it took effect |
| `UpgradeAnswers.CommitNeedsAnswer` | cmd/trojan/actions/upgrade.go:287-298 | in every run from a state without a journal, whatever crashes or fails: the log shows the commit of the current upgrade, and did not when it started, only if its services answered at its health check, or to a recovery that found its journal healthy |
| `UpgradeAnswers.UnhealthyNeverCommits` | cmd/trojan/actions/upgrade.go:287-310 | on a host whose services do not answer after the switch no commit is logged, whether the disk works or not |
| `UpgradeRun.Upgrader.RunUpgrade` | cmd/trojan/actions/upgrade.go:251-325 | the upgrade as steps of the system with the answers of this host. Success means that all checks passed, and no journal, a logged commit, and at each target the checked artifact last installed there; without a good health check no commit is ever logged. On a disk that works it succeeds exactly when all checks pass, and otherwise ends as `UpgradeEnds` says |
| `UpgradeTheorems.AllNewIff` | cmd/trojan/actions/upgrade.go:582-590 | then all artifacts are in place exactly when artifacts with one target agree |
| `UpgradeTheorems.EqualTargetsNotAllNew` | cmd/trojan/actions/upgrade.go:369-373 | with two different artifacts for one target they are not |
| `UpgradeRun.Upgrader.ExecuteUpgrade` | cmd/trojan/actions/upgrade.go:246-325 | first a run of recovery steps only, up to a state that is returned; the upgrade starts from exactly that state if recovery succeeded, and otherwise nothing happens behind it. On a disk that works recovery succeeds unless a rollback is due and the old services do not answer, and then the upgrade exactly when all checks pass; both end as `RecoveryEnds` and `UpgradeEnds` say |
| `HealthyRecovery.HealthyRecoveryIff` | cmd/trojan/actions/upgrade.go:727-762 | once recovery from a healthy journal is through, after any number of attempts, the targets are all old or all new exactly when the attempts together put back all of them or none; otherwise a commit was logged |
| `HealthyRecovery.MixtureIff` | cmd/trojan/actions/upgrade.go:727-762 | a mixture exactly when the last answer of the services was good, after earlier attempts put back some targets and not all |
| `HealthyRecovery.HealthyJournalMayCommitMixture` | cmd/trojan/actions/upgrade.go:727-745 | for any two or more targets there is a run of two attempts that logs a commit with one target old and one new |
| `HealthyRecovery.HealthyJournalMayCommitOld` | cmd/trojan/actions/upgrade.go:727-745 | with one target there is a run that logs a commit with the old file back |
| `HealthyRuns.ReachesHealthy` | cmd/trojan/actions/upgrade.go:271-298 | an upgrade nothing stands in the way of, dying between its health check and its commit, leaves a healthy journal with every artifact in place |
| `HealthyRuns.MixtureFromStart` | cmd/trojan/actions/upgrade.go:246-308 | so a run from the start of any such upgrade of two or more targets, through two deaths, logs a commit of a mixture |
| `CertificateStore.ServesThroughoutIff` | cmd/trojan/actions/deploy_security.go:97-206 | over any number of renewals, each failing or dying anywhere, a matching pair is served at every point exactly when no renewal whose swap took effect but was reported as failed removes a file of its version |
| `CertificateStore.OnlyReportedSwapsLose` | cmd/trojan/actions/deploy_security.go:158-172 | so without such a report one is served throughout |
| `CertificateStore.CurrentComesLast` | cmd/trojan/actions/deploy_security.go:113-141 | in every run a version becomes current only right after its own renewal made its directory, wrote its certificate and its key and synced them, in this order and each without an error |
| `CertificateStore.RunKeepsInv` | cmd/trojan/actions/deploy_security.go:97-206 | in every run, a version about to be made current, or just made current by a swap that was not reported as failed, is complete and matching |
| `CertificateStore.Directory.WriteVersion` | cmd/trojan/actions/deploy_security.go:113-132 | a new version is filled step by step, writes cut short included, without changing the live pair |
| `CertificateStore.Directory.EnsureLink` | cmd/trojan/actions/deploy_security.go:174-189 | a link that already leads into current is left alone; success means that it does |
| `CertificateStore.Directory.RemoveAll` | cmd/trojan/actions/deploy_security.go:118-123 | removes as much of one version as works, and nothing else |
| `CertificateStore.Directory.Prune` | cmd/trojan/actions/deploy_security.go:193-206 | the version in use stays, and no other is left if deletion works |
| `CertificateStore.Directory.WriteCertificateFiles` | cmd/trojan/actions/deploy_security.go:97-156 | a renewal is a run of the system; success leaves the new, matching pair live exactly when both stable paths share a directory, a mismatch changes nothing, and without a swap the live pair is as before, and everything is if the cleanup works; when all file operations work it succeeds for every matching pair |
| `Migrations.AppliedIsPrefix` | internal/database/migrations.go:133-175 | every interleaving with takeovers, failures and deaths keeps it that the applied versions are a prefix of the list and the data is the effect of exactly these, each once and in order; applied versions only grow |
| `Migrations.FreshStart` | internal/database/migrations.go:133-175 | so from a database nobody has migrated that holds of every state any run reaches |
| `Migrations.AppliedAreDefined` | internal/database/migrations.go:133-148 | nothing without a version, a name, a revision and a change is ever applied, versions increase, and each record is that of its migration |
| `Migrations.CommitExtends` | internal/database/migrations.go:269-322 | a commit applies exactly the next migration |
| `Migrations.OnlyCommitsCount` | internal/database/migrations.go:269-322 | between any two states of a run as many versions are added as there are commits, and the data changes by exactly their migrations, so failed and abandoned ones leave no trace |
| `Migrations.FinishCommitsIff` | internal/database/migrations.go:285-313 | a migration adds its record and its effect, and nothing else, exactly when its change and its commit work, its context is live, the row carries its token and has not expired, and its version is new; otherwise it leaves no trace and its process leaves |
| `Migrations.RenewalProlongsIff` | internal/database/migrations.go:204-213 | a renewal gives the holder a full term from now, and changes nothing for anybody else but to cancel its own migration |
| `Migrations.CalmCheck` | internal/database/migrations.go:133-160 | a process that holds the lease passes over what is applied, enters the next migration if it is in order, and leaves at the end of the list or before one that is not |
| `Migrations.CalmFinish` | internal/database/migrations.go:269-322 | and there it commits |
| `Migrations.TakeOverNeedsExpiry` | internal/database/migrations.go:180-199 | in every state reached from a fresh start, whoever takes the row, by update or by insert, finds it expired by the clock or absent |
| `Migrations.HolderKeepsLeaseIff` | internal/database/migrations.go:180-217 | in every run that ends within its term the holder still has the lease exactly when it did not release it |
| `Migrations.LosingIsFinal` | internal/database/migrations.go:180-239 | the step that takes the row from a token is final for that token |
| `Migrations.LostForGood` | internal/database/migrations.go:180-239 | in no later state does that token own the lease |
| `Migrations.NothingAfterLoss` | internal/database/migrations.go:204-239 | so nothing its holder or its renewal loop still does in any later state changes the database: no commit, no late renewal, no late release; and a late renewal cancels its own migration |
| `Migrations.OldHolderIsHarmless` | internal/database/migrations.go:303-313 | the same from a fresh start, after any takeover |
| `MigrationRunner.Runner.Acquire` | internal/database/migrations.go:180-199 | update, else insert, as steps of the system with any interference; success leaves the row its own, failure means that its token is passed; left alone it succeeds exactly when the row is absent or expired |
| `MigrationRunner.Runner.ReleaseLock` | internal/database/migrations.go:215-217 | the release step, which touches only its own row |
| `MigrationRunner.Runner.RunMigration` | internal/database/migrations.go:269-322 | the transaction as one step: with a failed change or commit it fails and leaves records and data as they are; otherwise it records and applies the migration exactly under an own unexpired lease in a live context |
| `MigrationRunner.Runner.RunMigrations` | internal/database/migrations.go:102-176 | with other processes, renewals and time between any two statements, the whole run is a run of the system; afterwards its token is passed, and success means that the list is well defined and every migration of it recorded. Left alone, it is refused while another's lease lasts, and otherwise applies the list up to its end, or up to the first migration that is not in order, and releases the lease |
| `RewindStream.ReadTakesNext` | common/io.go:21-54 | a read delivers the next upcoming bytes and no others, in every mode |
| `RewindStream.RewindIff` | common/io.go:85-93 | a rewind goes back to the mark exactly when the recording is complete |
| `RewindStream.ChangingModeKeepsIff` | common/io.go:95-121 | starting or ending a recording loses nothing exactly when no replay is under way; stopping never does |
| `RewindStream.RunIsTransparent` | common/io.go:21-121 | for any reads and rewinds while recording, each read delivers the stream at the consumer's position |
| `RewindStream.RewindStartsOverIff` | common/io.go:38-52 | a rewind after a run starts over from the mark exactly when no fetched byte went unrecorded |
| `RewindStream.HandedOverFromMark` | common/io.go:85-99 | after rewind and stop the next consumer sees the stream from the mark, once and in order |
| `RewindReading.RewindReader.Read` | common/io.go:21-54 | the object's read is the model's step, with its error exactly over the limit |
| `RewindReading.RewindReader.ReadByte` | common/io.go:56-60 | the next byte, or zero when none came |
| `RewindReading.RewindReader.Discard` | common/io.go:62-83 | drops the next bytes, all of them unless an error is reported, which a connection without faults does only when there are fewer |
| `RewindReading.RewindReader.Rewind` | common/io.go:85-93 | the model's rewind, or a panic without a buffer |
| `RewindReading.RewindReader.StopBuffering` | common/io.go:95-99 | the model's stop |
| `RewindReading.RewindReader.SetBufferSize` | common/io.go:101-121 | the model's start or end of a recording, or a panic when that is already so |
| `AddressCodec.AddressRoundTripIff` | tunnel/metadata.go:139-228 | an address written and read back is itself, up to IP addresses given as names, exactly when it fits |
| `AddressCodec.AddressLayout` | tunnel/metadata.go:198-228 | an address that fits is written as section 5 of RFC 1928 says: its kind, its bytes, and the port with its high byte first |
| `AddressCodec.LongNameMisreads` | tunnel/metadata.go:173-191 | a longer name panics the reader or leaves too many bytes unread |
| `AddressCodec.DecodedPassesOn` | tunnel/metadata.go:139-228 | any address that was read can be written and read again unchanged |
| `AddressCodec.WriteAddress` | tunnel/metadata.go:198-228 | appends the encoding; an unknown kind is refused after one byte |
| `AddressCodec.ReadAddress` | tunnel/metadata.go:139-196 | what the codec decodes from the upcoming bytes, taking exactly those, for any chunking of the stream; a connection without faults fails only at its end |
| `TrojanPackets.PacketReads` | tunnel/trojan/packet.go:34-85 | whatever its payload, a packet reads as what its length field announces, the length modulo 2^16, and the rest of the payload is left in the stream |
| `TrojanPackets.PacketLayout` | tunnel/trojan/packet.go:34-48 | on the wire a packet is its address, its length with the high byte first, carriage return, line feed and its payload |
| `TrojanPackets.PacketReadsBackIff` | tunnel/trojan/packet.go:34-85 | it reads back as itself, or as one error, with what follows untouched, exactly when the length fits the field |
| `TrojanPackets.PacketRoundTripIff` | tunnel/trojan/packet.go:34-85 | a packet within the size limit arrives unchanged exactly when its address fits |
| `TrojanPackets.SequenceReadsBack` | tunnel/trojan/packet.go:54-85 | any sequence of framed packets reads back in order, one error for each oversize one |
| `TrojanPackets.BuildPacket` | tunnel/trojan/packet.go:34-48 | the bytes written are the packet's encoding |
| `TrojanPackets.WritePacket` | tunnel/trojan/packet.go:34-52 | a successful write puts exactly the packet's encoding on the wire, a failed one a beginning of it; without a fault of the connection it succeeds |
| `TrojanPackets.ReadPacket` | tunnel/trojan/packet.go:54-85 | what the framing decodes from the upcoming bytes, with oversize packets drained; on a connection without faults only the end of the stream keeps it from that |
| `TrojanPackets.CertainIsExact` | tunnel/trojan/packet.go:54-85 | so what is ahead decides whether a packet arrives, is too large, or is not there |
| `TrojanHandshake.HeaderRoundTripIff` | tunnel/trojan/client.go:51-72 | a header and payload parse back exactly when the address fits |
| `TrojanHandshake.HeaderLayout` | tunnel/trojan/client.go:51-72 | on the wire a header is the hash, a line end, the command, the address and a line end |
| `TrojanHandshake.OutboundConn.WriteHeader` | tunnel/trojan/client.go:51-72 | only the first call puts a header on the wire |
| `TrojanHandshake.OutboundConn.Write` | tunnel/trojan/client.go:74-86 | the wire is one header and then all payload reported as written, in order; after a failed header it is what went out of that and later payload without a header; without a fault of the connection every write succeeds |
| `TrojanHandshake.Auth` | tunnel/trojan/server.go:71-112 | acceptance means that a known hash and a complete header were read and exactly the payload is left; every rejection is justified |
| `TrojanHandshake.Serve` | tunnel/trojan/server.go:148-173 | the connection is proxied with exactly the payload unread, or the redirect target sees the stream from byte zero, never hitting the recording limit; if all bytes are there at once it is proxied exactly when it has a complete header with a known hash and is admitted |
| `TrojanHandshake.ClientReachesServer` | tunnel/trojan/server.go:148-173 | on a client's stream with a known hash and no fault there is no reason to reject, and the payload is what was sent |
| `StickyMux.WriteKeepsOrderIff` | tunnel/mux/conn.go:49-74 | a write puts its frame behind its stream exactly when it closes it or no closing frame of it is held back |
| `StickyMux.WriteKeepsOthers` | tunnel/mux/conn.go:49-74 | no other stream is disturbed |
| `StickyMux.StreamKeepsOrderIff` | tunnel/mux/conn.go:17-74 | over any writes, frames out and held back are, for a stream, the frames written in their order exactly when none was written behind the closing frame without payload in between |
| `StickyMux.StreamsKeepOrder` | tunnel/mux/conn.go:17-74 | in particular for all streams if the eight-byte headers with command 1 come last in their streams |
| `StickyMux.EmittedIsPrefix` | tunnel/mux/conn.go:17-74 | then the peer has a beginning of the stream |
| `StickyMux.FramesArePermuted` | tunnel/mux/conn.go:17-74 | frames out and held back are a permutation of the frames written |
| `StickyMux.LateFrameOvertakes` | tunnel/mux/conn.go:61-72 | a frame after the closing frame of its stream overtakes it |
| `StickyMux.HeaderPlacement` | tunnel/mux/conn.go:49-74 | on the bytes: an eight-byte header of version 1 or 2 waits if its command is 0 or 1, and goes out ahead of the next payload or behind it; any other is sent at once |
| `StickyMux.OthersGoOut` | tunnel/mux/conn.go:49-74 | a frame of another length, version or command is out with its own write, and so is all that was held back |
| `StickyMux.CloseFlushesIff` | tunnel/mux/conn.go:41-47 | closing sends everything that was held back, and the padding, unless just one frame was held and no padding was drawn |
| `StickyMux.StickyConn.StickToPayload` | tunnel/mux/conn.go:17-39 | opening frames, payload, closing frames, and both queues empty |
| `StickyMux.StickyConn.Write` | tunnel/mux/conn.go:49-74 | the model's write, byte by byte on the wire; a full queue blocks and changes nothing, and a payload fails only if the connection does |
| `StickyMux.StickyConn.Close` | tunnel/mux/conn.go:41-47 | the model's closing step |
| `Geodata.EndsIff` | common/geodata/decode.go:37-96 | on every file: the loop ends exactly when following the skips gets to an answer before it comes back to an entry, and with this answer; it never ends exactly when the first entry is one of some that are all skipped, each to another of them |
| `Geodata.EmitBytes` | common/geodata/decode.go:28-99 | on every file on which it ends, the state machine gives the answer of that walk; if all skips fit, that is scanning entry by entry |
| `Geodata.ForwardEnds` | common/geodata/decode.go:86-91 | it does end if every skipped length fits in a signed 64-bit integer |
| `Geodata.ScanFindsFirstMatch` | common/geodata/decode.go:28-99 | on any concatenation of well-formed entries walk and scan give the body of the first match, or not found; and all skips fit |
| `Geodata.WrongTag` | common/geodata/decode.go:52-57 | behind any entries that do not match, a byte other than the tag of an entry is reported as an invalid file |
| `Geodata.WrongLength` | common/geodata/decode.go:58-67 | a length of more than 64 bits as an invalid length |
| `Geodata.CutLength` | common/geodata/decode.go:38-43 | a list cut off inside a length as code not found |
| `Geodata.CutEntry` | common/geodata/decode.go:47-49 | and the entry looked for, cut off behind its code, as a short read |
| `Geodata.SkipLandsIff` | common/geodata/decode.go:86-91 | a skip lands behind the entry exactly when that is a position the file system allows |
| `Geodata.VisitsEntriesIff` | common/geodata/decode.go:86-96 | on every file the scanner visits exactly its entries if and only if every skip fits |
| `Geodata.RefusedSkip` | common/geodata/decode.go:89 | behind an entry that ends beyond every allowed position the scanner returns what is no entry of the file |
| `Geodata.RefusedFile` | common/geodata/decode.go:89 | seventeen bytes with a length of 2^63 - 1 do so on any file system |
| `Geodata.CodeAdvances` | common/geodata/decode.go:80-91 | both seeks after a code, with their 64-bit conversions and refusals, land where the entry's lengths and the limit say |
| `Geodata.NeverEnds` | common/geodata/decode.go:37-96 | entries that lead to one another, the first of the file among them, keep the loop going for any number of passes |
| `Geodata.PairLoops` | common/geodata/decode.go:37-96 | two entries, each leading to the other, are such |
| `Geodata.BackwardsEnds` | common/geodata/decode.go:86-91 | a length of 2^64 - 1 leads backwards and yet the scanner ends |
| `Geodata.EndlessFile` | common/geodata/decode.go:37-96 | thirteen bytes are such a file |
| `Geodata.VarintRoundTrip` | common/geodata/decode.go:58-67 | every 64-bit length written as a varint is read back |
| `Geodata.WrittenIsWellFormed` | common/geodata/decode.go:58-79 | entries as an encoder writes them are well formed |
| `Eligibility.ValidHashes` | internal/webserver/nodes.go:417-435 | the master's list is exactly the eligible users, each once |
| `Eligibility.HysteriaAuth` | internal/webserver/nodes.go:491-508 | login is accepted exactly for eligible users |
| `Eligibility.LetInUntil` | internal/webserver/nodes.go:424-433 | an active user is let in up to the last byte of the quota and through the second of the expiry, and without either for ever; a disabled user and one without a hash never |
| `Eligibility.SyncAuthenticatorFromDatabase` | internal/webserver/auth_sync.go:15-46 | afterwards exactly the eligible users are known, and those known before keep their counters |
| `Eligibility.ListIsTakenIff` | internal/nodesync/manager.go:507-510 | a worker accepts the master's list exactly when every eligible hash is 56 hexadecimal digits |
| `Eligibility.SyncWorker` | internal/nodesync/manager.go:531-568 | after a successful worker sync every authenticator knows exactly the eligible users; it fails only if an eligible hash is none or the worker's own side was hindered |
| `RuleOrder.OrderedIsPermutation` | internal/database/models.go:111-150 | no line is lost, added or changed |
| `RuleOrder.OrderedIsStable` | internal/database/models.go:111-150 | AI lines keep their order, and so do the others |
| `RuleOrder.AIBeforeBroad` | internal/database/models.go:126-132 | every AI line precedes every other google or proxy rule set |
| `RuleOrder.GoesBeforeFirstBroad` | internal/database/models.go:126-149 | the AI lines go right before the first broad rule set among the others, and no further ahead |
| `RuleOrder.GoesBeforeFirstCatchAll` | internal/database/models.go:133-143 | without one, right before the first catch-all rule, and without either they stay |
| `RuleOrder.AILinesComeFirst` | internal/database/models.go:111-150 | in the text: every line for one of the two AI groups comes before every other line for the google or the proxy rule set |
| `RuleOrder.OrderedTwice` | internal/database/models.go:111-150 | a second application to lines changes nothing |
| `RuleOrder.SplitJoin` | internal/database/models.go:112-149 | joining lines and splitting the text gives the lines back |
| `RuleOrder.JoinSplit` | internal/database/models.go:112-149 | splitting a text and joining the lines gives the text back |
| `RuleOrder.PrioritizeAIRules` | internal/database/models.go:111-150 | the lines of the result are the rearranged lines of the input |
| `RuleOrder.PrioritizedTwice` | internal/database/models.go:111-150 | a second application to the text changes nothing |

## Left out

- HTTP, JSON, TLS, gRPC and database plumbing: a request is delivered or lost, a transaction is one step, an encoding is injective.
- Hashing, encryption and random numbers: digests are an arbitrary function, keys come from a fresh supply.
- Rates other than 1: rounding is an arbitrary function, followed by the source's range check.
- Power loss as opposed to a crash: the certificate store does not sync file contents, so the theorem is about process crashes.
- Limits of memory: the geodata scanner allocates a buffer of the length it read, which can fail before the read does.
- Concurrent writers of the mux connection.
- IP limits, speed limits and the IP table of the authenticator.
- Writing the user list into a worker's own database after a sync, heartbeats, failure counts and log records.
- The domain matcher of the router, the SQL updaters of the statistics packages, subscriptions, menus and installers: lookups, glue and templates.
- The checks of services, health addresses and configuration files in a manifest: they pass or fail.
- A line of the audit log written in part, and the lock against two upgrades at once.
- NodeSync.Manager.Reconcile: nobody else changes users while a list is taken over.
- MigrationRunner.Runner.RunMigrations: a failed renewal posts its error and cancels the running transaction in one step.
- RewindReading.RewindReader.SetBufferSize: sizes are natural numbers; a negative size, which no caller passes, panics in the allocation.
- RewindReading.RewindReader.Read: of the concurrent calls only a stop during the wait for the connection is modelled, not a start.
- AddressCodec.WriteAddress: an IPv4 or IPv6 address carries 4 or 16 bytes; one whose bytes contradict its kind is not modelled.
- Eligibility.SyncAuthenticatorFromDatabase: does not model the IP limits it also sets, and the database read always succeeds.
- Geodata.EmitBytes: is a method, so it is stated for the files on which the loop ends, which `Geodata.EndsIff` tells apart exactly; it does not model the panic on a length too large to allocate, where the read is taken to come back short.
- DataPlaneReporter.Reporter.Flush: does not tell the kinds of failed answers apart.
