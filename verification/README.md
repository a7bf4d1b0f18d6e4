# Verified model of device synchronization

NOVA Desktop keeps folders of up to 16 devices in step through one broker. Files travel as immutable versions made of
content-addressed blocks; transfers resume, receivers acknowledge each version, and the broker deletes a block once every
recipient has it. This project models that system in Dafny, the broker's tables and the devices' durable state together,
and proves what it is for: no block is lost, every version stays deliverable, histories stay linear, devices converge, and
power loss at any durable write is harmless. It also covers the content-defined chunker, the framing between the C client
and the Python broker, the configuration store's all-or-nothing save, and the terminal's two-thread byte pump.

## How it is built

- `Base` holds bytes, symbolic SHA-256 and sums; `BrokerState` gives each broker request as a function on a value of the
  tables; `BrokerInvariants` proves what every request keeps; `BrokerGuarantees` proves what follows for any run of requests.
- `BrokerService` is the broker as an object with those tables as fields. Every handler is proved to answer, and to change
  the tables and files, exactly as its function says. `BrokerAnswers` says the same of each request in terms of rows and
  files alone.
- `ClientState`, `Receiving` and `Publishing` describe one device: durable writes, when a reception or a publication succeeds,
  what it leaves, and every state in which power loss can leave it. `Recovery` proves that receiving again ends the same,
  `Resuming` when publishing again can.
- `SyncSystem` lets any number of devices and the broker take steps in any order, a device stopping between any two and
  users deciding between versions at any time. `SyncInvariants` keeps one invariant over all of that: a strict part for
  devices that made no explicit choice and a common part for all; `SyncGuarantees` draws the safety results from it,
  `Exceptions` the sharper form of one, and `ConcreteRuns` has concrete runs. `ReceptionRun` and `ChoiceRun` show that
  receptions, cut off anywhere, and whole choices are such runs, `PublicationRun` the same of publications and repairs;
  `Interference` is what other devices can do meanwhile, and `RecoveryRun` that they do not hinder recovery.
- `Alignment` says when a device's receipts agree with its recorded heads; `Convergence` and `SessionConvergence` prove that
  pulling and sessions reach the heads exactly then; `Deletions` what changes when deletions are switched off, `OwnVersions`
  what the outbox means for it, `ChoiceAlignment` what a choice does to it, `HeadTakenBack` a run that ends out of line.
- `Preservation` proves that displaced content survives, `Orphans` what becomes of a version dropped from the outbox,
  `GoingThrough` when receptions and choices succeed, in terms of what a caller can look up beforehand.
- `SyncClient` is the device's session as an object. Each method is proved to succeed exactly when the specification says,
  to leave the specified state, and to log after every durable write a state from which the recovery theorems apply;
  `SyncPoints`, `Uploading` and `Resolution` hold the lemmas for that.
- `Chunker`, `Snapshots`, `Wire`, `WireEndpoints`, `Publication` and `Terminal` are the other parts.

## Assumptions

- A broker request is one atomic step that takes effect or changes nothing; an acknowledgement is two such steps, the receipt
  and then the collection. `repair_prepare` runs outside a write transaction (`sync/server/chunksync/broker.py:329`) and a
  crash between append and rename (`sync/server/chunksync/broker.py:240-250`) is not considered.
- The broker starts from an empty, initialized queue; authentication has succeeded and its gate is open.
- SHA-256 is injective: a digest is the symbolic hash of one byte string, so it fixes the block and its size. A manifest
  digest is likewise a symbolic hash of the manifest.
- Devices send only requests that the client code sends. Version identifiers are drawn at random and never collide.
- Paths are opaque keys: no case variants, and no path is a directory prefix of another.
- A cache entry is a file that was hashed before it got its name, so the value model keeps the cache as a set of blocks;
  `SyncClient` keeps the bytes and hashes them again where the code does.
- JSON and zlib are abstract inverse pairs. `ReplaceFileW`, file moves and SQLite transactions are atomic. `PostMessageW`
  succeeds while the window exists.

## What the proofs found

- A run that only pushes can leave a device with both exceptions to its recorded chain at once, even for one file: a version
  that is applied but not acknowledged, and on top of it an own version that is committed but not recorded.
  `ConcreteRuns.ExceptionsCoexist` is such a run; `SyncGuarantees.RecordedChain` bounds each exception by one per dataset,
  and `Exceptions.ExceptionsExclusive` shows that they exclude each other when nothing is scanned beside an inbox row.
- Pulling brings a device to the heads if and only if it is aligned: for each version, its receipt is at the broker exactly
  when the version is recorded (`Convergence.PullConvergesExactly`, whatever the device or others chose before;
  `SessionConvergence.SessionConvergesExactly` with rows left in the inbox). Two ways out of line are known:
  - A publication cut off between commit and recording. For a device that made no explicit choice this is the only one
    (`OwnVersions.UnchosenPull`); `ConcreteRuns.StoryStalls` is such a run, and publishing first gets past it
    (`OwnVersions.PublishFirstConverges`).
  - Publishing first can also take a recorded head back. After a publication cut off like that, and an explicit choice for a
    later version of the other side cut off before the outbox forgets the file, the next session finds the old version
    committed and records it over the later one. Inbox and outbox are then empty, every file is as recorded and nothing is
    pending, but the file is behind its head and pulling does not bring it on: `HeadTakenBack.TaleEndsBehind`, and in general
    `OwnVersions.PublishTakesBack`. A completed choice puts its file in line again (`ChoiceAlignment.ChoiceAligns`).
- An explicit choice can drop an outbox version that the broker still holds as staged; no run of any devices ever commits or
  removes it (`Orphans.OrphanStays`). The recorded chain of a device is therefore stated for runs in which it makes no
  choice; everything else that is claimed of all reachable states includes choices.
- A partial download that is not a prefix of its block is never thrown away, so that block cannot be downloaded any more:
  `SyncClient.SyncRun.Download` succeeds exactly when the partial file is a true prefix and the rest is served. In every
  reachable state partial files are true prefixes. Partial uploads differ: a wrong one is thrown away once, after which
  the upload succeeds.
- The two sides of the connection compute the compression threshold differently: the client rounds 95 percent down, the
  server does not. Decoding does not depend on it.

## Model

| member | source | states |
|---|---|---|
| BrokerService.Broker.Prepare | sync/server/chunksync/broker.py:144-200 | staging answers and changes the tables as one transaction: refusals in the code's order, an identical version found again, else job, recipients, blocks, needs and new objects within the quota |
| BrokerService.Broker.Survey | sync/server/chunksync/broker.py:166-177 | a unique block must be uploaded exactly when no other device is bound or some other bound device does not have it in its inventory with that size; how many new bytes that allocates, and whether a recorded size disagrees |
| BrokerService.Broker.Admit | sync/server/chunksync/broker.py:161-182 | a new version is admitted exactly when its parent is the head, sizes agree and the quota holds |
| BrokerService.Broker.Enter | sync/server/chunksync/broker.py:183-192 | the rows of an admitted version |
| BrokerService.Broker.Measure | sync/server/chunksync/broker.py:202-218 | how much of a block is on disk: all of a published file that hashes to its name and has the right size, the length of a partial file that is not too long, and otherwise nothing that could be the block |
| BrokerService.Broker.Append | sync/server/chunksync/broker.py:239-253 | a packet lengthens the partial file; a block that comes out whole is published when it hashes to its name and thrown away otherwise |
| BrokerService.Broker.Upload | sync/server/chunksync/broker.py:220-253 | `put` answers the offset, asks for a retry at another offset, or appends; all refusals |
| BrokerService.Broker.Verify | sync/server/chunksync/broker.py:266-268 | whether everything a version needed is on disk in full, and the object rows read back |
| BrokerService.Broker.Declare | sync/server/chunksync/broker.py:282-283 | a device's inventory gains the listed blocks, rows that exist keep their size |
| BrokerService.Broker.Commit | sync/server/chunksync/broker.py:255-274 | a staged version on the head becomes READY and the head, with the source's inventory and receipt; a committed one answers again; a conflict or a missing block changes nothing |
| BrokerService.Broker.Collect | sync/server/chunksync/broker.py:291-304 | exactly the blocks that no undelivered version refers to lose file, partial file and row |
| BrokerService.Broker.Acknowledge | sync/server/chunksync/broker.py:276-289 | receipt, inventory, delivery when all of at least two recipients have acknowledged, then collection; a wrong digest changes nothing |
| BrokerService.Broker.RepairPrepare | sync/server/chunksync/broker.py:369-381 | the missing blocks of a READY version get rows and needs within the quota; the plan says STAGING |
| BrokerService.Broker.Pending | sync/server/chunksync/broker.py:382-385 | the READY versions of a group without the device's receipt, by sequence number |
| BrokerService.Broker.Get | sync/server/chunksync/broker.py:386-400 | a packet of a block of a READY version from an offset within it |
| BrokerAnswers.AdmittedExactly | sync/server/chunksync/broker.py:144-182 | a new version is taken exactly when it is well-formed, the sender's own, of a known group, on the file's head, in agreement with recorded sizes, and what is allocated afterwards is within the quota |
| BrokerAnswers.PlanExactly | sync/server/chunksync/broker.py:166-192 | a new version asks for a listed block if and only if it is not so that another device is bound and every other bound device has the block, of that size, in its inventory |
| BrokerAnswers.CommitDelivers | sync/server/chunksync/broker.py:170-192 | whatever was requested since the plan, right after the commit every device bound at the plan has each block of the version in its inventory or is served it, verified, with no repair |
| BrokerAnswers.PlanAgainExactly | sync/server/chunksync/broker.py:157-160 | a version prepared before is answered with its state and the rows of what it needs, and nothing changes |
| BrokerAnswers.ConflictExactly | sync/server/chunksync/broker.py:163-164 | staging or committing reports a conflict exactly when the version's parent is not the head of its file |
| BrokerAnswers.PutExactly | sync/server/chunksync/broker.py:220-238 | which packets are accepted, in terms of rows and files, and which of them are only told the offset |
| BrokerAnswers.PacketExactly | sync/server/chunksync/broker.py:239-253 | an accepted packet at the offset lengthens the partial file, publishes the block when that makes it whole and right, and has it thrown away when whole and wrong |
| BrokerAnswers.CommitExactly | sync/server/chunksync/broker.py:255-274 | when a commit is taken, in terms of head and files on disk, and the head, state, receipt and inventory it leaves |
| BrokerAnswers.ReceiptExactly | sync/server/chunksync/broker.py:276-287 | when a receipt is taken, and that a version is delivered exactly once all of at least two recipients have sent theirs |
| BrokerAnswers.CollectExactly | sync/server/chunksync/broker.py:291-304 | a collection deletes a block with a row exactly when no undelivered version refers to it, and touches nothing else |
| BrokerAnswers.GetExactly | sync/server/chunksync/broker.py:386-400 | exactly the blocks of READY versions that are on disk are handed out, from any offset within them, at most 128 KiB at a time |
| BrokerAnswers.RepairExactly | sync/server/chunksync/broker.py:369-381 | a repair asks for a block exactly when the version needed it before, or lists it and some other recipient has neither acknowledged the version nor declared the block |
| BrokerAnswers.RepairsExactly | sync/server/chunksync/broker.py:364-368 | a source is asked to repair exactly its READY versions with an incomplete block that another recipient lacks |
| BrokerAnswers.BindExactly | sync/server/chunksync/broker.py:343-344 | a bound device becomes a recipient of every version of the group, and a delivered one it has not acknowledged is READY again; nothing else changes |
| BrokerAnswers.UnbindExactly | sync/server/chunksync/broker.py:336 | unbinding takes back the one binding and leaves versions, recipients and blocks |
| BrokerAnswers.CreateExactly | sync/server/chunksync/broker.py:354-357 | a group is created exactly when it exists or there are fewer than 16 |
| BrokerInvariants.UpgradeSame | sync/server/chunksync/broker.py:306-310 | the upgrade that every session runs changes nothing in any state a queue can be in |
| BrokerGuarantees.HandleInv | sync/server/chunksync/broker.py:312-411 | every request keeps all table and file invariants |
| BrokerGuarantees.ServeInv | sync/server/chunksync/broker.py:306-411 | so does every sequence of requests by any devices |
| BrokerGuarantees.SingleHistory | sync/server/chunksync/broker.py:157-164 | after any requests, the committed versions of a file are one chain of parents from a parentless first version to the head, sequence numbers rise along it, and no two share a parent |
| BrokerGuarantees.PendingExact | sync/server/chunksync/broker.py:382-385 | a bound device is answered exactly the committed versions it has not acknowledged, parents before children |
| BrokerGuarantees.StaysDeliverable | sync/server/chunksync/broker.py:364-381 | each block a recipient still needs is in its inventory, or verified on the broker and served, or in the source's inventory and listed for repair |
| BrokerGuarantees.BoundStaysOpen | sync/server/chunksync/broker.py:340-345 | a bound device is a recipient of every version of its group, whenever it bound; a version it lacks is READY and none of its blocks is garbage |
| BrokerGuarantees.QuotaKept | sync/server/chunksync/broker.py:166-192 | after any requests, progress never exceeds size, bytes on disk are the sum of progress, and stored is at most allocated is at most the quota |
| BrokerGuarantees.GroupsBounded | sync/server/chunksync/broker.py:346-358 | after any requests by any devices there are at most 16 groups |
| BrokerGuarantees.PrepareAgain | sync/server/chunksync/broker.py:157-160 | preparing again gives the same answer and changes nothing |
| BrokerGuarantees.UploadAgain | sync/server/chunksync/broker.py:228-234 | repeating any accepted packet is accepted and leaves tables and files as they are, also when the packet was a whole wrong block |
| BrokerGuarantees.CommitAgain | sync/server/chunksync/broker.py:262-274 | committing again changes nothing |
| BrokerGuarantees.AcknowledgeAgain | sync/server/chunksync/broker.py:276-304 | acknowledging again, with the collection inside, changes nothing |
| BrokerGuarantees.LastReceiptFrees | sync/server/chunksync/broker.py:285-304 | after an acknowledgement the broker keeps only what versions still to be delivered refer to, and the last receipt of at least two recipients frees every block no other such version refers to |
| Recovery.SlicesOfBlocks | src/platform/sync_client.c:262-278 | a file put together from a version's blocks is cut into the same blocks again at the listed sizes |
| Recovery.ReceptionRecovers | src/platform/sync_client.c:340-466 | after power loss at any durable write of a reception, with or without an explicit choice, the file untouched since and others using the broker in between, running it again succeeds and leaves the same device state as an uninterrupted run; only under a choice for the server's side, where the recorded version has the same content cut differently, its blocks are cached besides |
| Recovery.ReceptionRecoversBroker | src/platform/sync_client.c:429-447 | and with nobody else at the broker also the same broker |
| RecoveryRun.ReceptionRecoversAmong | src/platform/sync_client.c:340-466 | in a run: a reception that is cut off anywhere, any steps of other devices, and the reception made again, which succeeds and leaves the device as an uninterrupted one would have |
| Resuming.PublicationResumes | src/platform/sync_client.c:165-255 | after power loss anywhere in a publication and any use of the broker by others since, publishing again succeeds if and only if the version is committed or its parent is still the head; a committed one changes nothing, a staged one becomes the head with the source's receipt; with nobody else at the broker everything ends exactly as after the first try |
| Resuming.LoggedResumes | src/platform/sync_client.c:165-255 | the same, both parts, from every state that a successful publication has left on disk |
| Resuming.OutboxPublishes | src/platform/sync_client.c:733-741 | in every reachable state, choices included, a saved outbox version the broker knows can be published if and only if it is committed or its parent is the head, and one it does not know if and only if `prepare` takes it: blocks are never what is missing |
| Publishing.SliceAppended | sync/server/chunksync/broker.py:239-253 | a true slice that continues a true prefix leaves a longer true prefix, or the verified block |
| Publishing.RepairDelivers | src/platform/sync_client.c:667-675 | a finished repair puts every block that a waiting recipient lacks back on the broker, verified and served |
| SyncInvariants.StepOk | src/platform/sync_client.c:165-487 | every step of any device, explicit choices included, or of the broker, keeps the invariant of the whole system |
| SyncInvariants.RunOk | src/platform/sync_client.c:676-760 | so does every interleaving of steps, with any stops, restarts and choices |
| SyncGuarantees.NoBlockLost | sync/server/chunksync/broker.py:291-304 | in every reachable state, whatever was chosen before, when the collector deletes a block, every recipient of every version that refers to it, and every device bound to its group, has it in its own cache |
| SyncGuarantees.EveryVersionDeliverable | sync/server/chunksync/broker.py:364-381 | in every reachable state, each block of a version that a recipient lacks is in its cache, or served by the broker, or listed for repair by a source that has it cached |
| SyncGuarantees.RepairsComplete | src/platform/sync_client.c:667-675 | in every reachable state, a repair that the broker accepts can be supplied from the source's cache and makes every missing block served again |
| SyncGuarantees.RecordedChain | src/platform/sync_client.c:359-364 | in every run in which the device makes no explicit choice, whatever the others choose, its recorded head is committed, and the versions with its receipt are the chain up to it but for one applied row and one own committed outbox version per dataset, the latter the head's child |
| Exceptions.ExceptionsExclusive | src/platform/sync_client.c:733-744 | and if it scans only datasets without an inbox row, as a run that receives before it scans does, at most one of the two exceptions holds for a file |
| SyncGuarantees.UploadsTrue | sync/server/chunksync/broker.py:202-218 | in every reachable state, files in `chunks/` are the blocks of their names and partial uploads are proper prefixes of theirs |
| ConcreteRuns.ExceptionsCoexist | src/platform/sync_client.c:728-740 | a concrete run after which both exceptions hold for one device and one file |
| ConcreteRuns.FirstPull | src/platform/sync_client.c:467-487 | a reachable state in which the conditions for convergence hold and a version is pending |
| ConcreteRuns.StoryStalls | src/platform/sync_client.c:723-745 | after that run, and the user's restoring the file, every other condition of convergence holds, and the receiving half of a session does not end at the heads |
| ReceptionRun.InterruptionIsRun | src/platform/sync_client.c:340-466 | every state an interrupted reception can leave behind, under any choice, is reached by steps of the system |
| ReceptionRun.ReceptionIsRun | src/platform/sync_client.c:340-466 | a whole reception, under any choice, is a run of steps of the system |
| ChoiceRun.ResolutionIsRun | src/platform/sync_client.c:676-722 | so is a whole explicit choice: decision, copy, receptions of what is pending and of the head, and the outbox forgetting the file |
| PublicationRun.PublicationIsRun | src/platform/sync_client.c:165-255 | a whole publication is a run of steps of the device, packet by packet |
| PublicationRun.InterruptedPublicationIsRun | src/platform/sync_client.c:195-255 | so is one cut off between any two packets or after the commit |
| PublicationRun.RepairIsRun | src/platform/sync_client.c:667-675 | and a whole repair |
| Orphans.OrphanStays | src/platform/sync_client.c:714-718 | a staged version that is in no outbox is still staged after any run |
| Interference.OthersRun | sync/server/chunksync/broker.py:306-411 | whatever other devices do and choose, a device's receipts, inventory and own versions stay, and the blocks it is still owed stay on the broker |
| Convergence.PullConvergesExactly | src/platform/sync_client.c:467-487 | for any bound device without rows whose files are as recorded, receiving what `pending` answered, with any steps and choices of other devices in between, succeeds throughout and ends with every file of the group recorded at the head it had and holding exactly that content, if and only if the device is aligned (deletions on and recyclable; `Deletions.PullEitherWay` has both cases) |
| Convergence.PullConverges | src/platform/sync_client.c:467-487 | so an aligned device converges |
| Alignment.UnchosenAligned | src/platform/sync_client.c:165-255 | a device that made no explicit choice is aligned if and only if no version of its own is committed but unrecorded |
| OwnVersions.UnchosenPull | src/platform/sync_client.c:467-487 | for it, a pull succeeds and reaches the heads under that condition and no other |
| Convergence.RowFirst | src/platform/sync_client.c:467-476 | a row an earlier session left is received exactly when it was applied or follows the recorded head, and leaves the files as recorded and the device as much aligned as it was |
| OwnVersions.UnrecordedCommitStalls | src/platform/sync_client.c:359-364 | with an own version committed but not recorded, the device is not at the head, and while that version is the next one no version owed to the device for the file is acceptable |
| SessionConvergence.SessionConvergesExactly | src/platform/sync_client.c:467-487 | rows first and then everything pending: all receptions succeed and the device ends at the heads if and only if each row is in its turn and the device is aligned (deletions on; `Deletions` has the other case) |
| Deletions.PullEitherWay | src/platform/sync_client.c:379 | a pull with deletions on or off, others taking steps in between, goes through and ends at the heads if and only if the device is aligned and, with deletions off, none is due |
| Deletions.SessionEitherWay | src/platform/sync_client.c:467-487 | the same for the receiving half of a session, rows first, each in its turn |
| Deletions.SwitchedOff | src/platform/sync_client.c:379 | the switch refuses exactly the deletions that are not applied yet |
| OwnVersions.UnchosenSession | src/platform/sync_client.c:467-487 | without explicit choices, if and only if no version of the device's own is committed but unrecorded |
| OwnVersions.PublishFirst | src/platform/sync_client.c:733-743 | publishing a committed outbox version first, its content still in the file, leaves the device ready to receive, and aligned if and only if its receipts for the file end with that version |
| OwnVersions.PublishFirstConverges | src/platform/sync_client.c:733-743 | which they do for a device that made no explicit choice |
| OwnVersions.PublishTakesBack | src/platform/sync_client.c:242-248 | an aligned device that has recorded a later version is taken back and out of line by it |
| HeadTakenBack.TaleEndsBehind | src/platform/sync_client.c:713-743 | a concrete run to a device that is bound, clean, with empty inbox and outbox and nothing pending, and not at the head |
| ChoiceAlignment.ChoiceAligns | src/platform/sync_client.c:676-722 | a completed choice of a bound device aligns its file exactly when it ends with the head recorded, which it does unless only an applied row of the head was left; the other files stay as they were |
| ChoiceAlignment.ChoiceAlignsDataset | src/platform/sync_client.c:676-722 | so it aligns the device with the group if and only if the other files were aligned |
| Preservation.DisplacedIsBase | src/platform/sync_client.c:359-377 | without an explicit choice a reception only displaces content equal to the recorded version, and at every later point, power loss included, the cache rebuilds it |
| Preservation.ResolutionSafe | src/platform/sync_client.c:676-713 | under an explicit choice, power loss at any point included, every content displaced on the way survives, as a recovery copy or in the cache |
| Preservation.ChoiceEnds | src/platform/sync_client.c:676-713 | a whole choice ends with the head recorded; kept content is untouched, otherwise the file is the head's |
| Preservation.ChoiceLosesNothing | src/platform/sync_client.c:676-713 | carried through or refused at any reception, every content the file had on the way is in place, copied or in the cache |
| GoingThrough.ReceivedExactly | src/platform/sync_client.c:355-379 | in any reachable state a committed version that is addressed to the device, not applied yet and whose blocks can be had is received, under any choice, if and only if the file has the content required, the version follows the recorded one where there is no choice, and a deletion is allowed: synchronized and recyclable, or the local side kept |
| GoingThrough.InstallsVersion | src/platform/sync_client.c:405-433 | what a reception puts in place has the digest and size of the version, and a deletion leaves no file |
| GoingThrough.SeedsPrevious | src/platform/sync_client.c:372-376 | a file that still has the recorded content has all that version's blocks cached by the end of a reception |
| GoingThrough.KeepsOverDeletion | src/platform/sync_client.c:379 | with the local side kept a deletion goes through though deletions are off: it is recorded, the file stays |
| GoingThrough.ChoiceGoesThrough | src/platform/sync_client.c:676-722 | in any reachable state, for either side and any number of pending versions: with the device bound, any existing copy sound, the blocks owed for the file at hand and deletions allowed or not involved, a choice goes through if and only if both sides are as inspected and nothing is pending before a head acknowledged already |
| SyncClient.SyncRun.CacheBlock | src/platform/sync_files.c:70-90 | a block enters the cache under its own hash |
| SyncClient.SyncRun.Seed | src/platform/sync_client.c:262-278 | succeeds exactly when the file, cut at the listed sizes, gives the listed blocks, which are then cached |
| SyncClient.SyncRun.Download | src/platform/sync_client.c:279-321 | succeeds exactly when the block is cached with the right size, or its partial file is a true prefix and the rest is served; it then is in the cache and the partial file gone, through recoverable states only |
| SyncClient.SyncRun.FetchRest | src/platform/sync_client.c:300-312 | the packet loop ends, with a file of full size or for a reason that makes the block unfetchable |
| SyncClient.SyncRun.DownloadAll | src/platform/sync_client.c:383-385 | succeeds exactly when every block of the version is reachable |
| SyncClient.SyncRun.Rebuild | src/platform/sync_client.c:405-418 | the cached blocks, copied a buffer at a time, give the version's content |
| SyncClient.SyncRun.Settle | src/platform/sync_client.c:390-433 | the working file is replaced only by content with the digest and size of the version, or removed only with consent, and otherwise untouched |
| SyncClient.SyncRun.Record | src/platform/sync_client.c:441-444 | head and row change together |
| SyncClient.SyncRun.Acknowledge | src/platform/sync_client.c:322-339 | the receipt is sent exactly when every block of the version is in the cache with its hash and listed size and the broker takes it; the row goes only after it was accepted |
| SyncClient.SyncRun.Inspect | src/platform/sync_client.c:355-371 | when a version is acceptable, and when the file already is it |
| SyncClient.SyncRun.SeedAll | src/platform/sync_client.c:372-376 | both seedings succeed exactly when the file holds the blocks it should |
| SyncClient.SyncRun.Stage | src/platform/sync_client.c:372-389 | everything up to the READY row, passing through recoverable states only; a deletion gets there only when deletions are synchronized or the local side is kept |
| SyncClient.SyncRun.Install | src/platform/sync_client.c:390-447 | everything from the READY row on, passing through recoverable states only |
| SyncClient.SyncRun.ReceiveOne | src/platform/sync_client.c:340-466 | a reception succeeds exactly when checks, blocks and broker allow it, ends in the specified device and broker state, and leaves on disk only states a rerun recovers from; a refused one has only gathered blocks and its row, or done all but have the receipt accepted. With deletions off and no local side kept, a deletion not yet applied is refused with files and heads as they were, and no reception removes a file unless deletions are on and may be recycled |
| SyncClient.SyncRun.ReceiveAll | src/platform/sync_client.c:467-487 | the loop over rows and then pending versions succeeds exactly when each reception does, and ends where they lead; from a clean, bound device with every owed block at hand it succeeds and reaches the server's heads if and only if each row was in its turn, the device aligned and, with deletions off, none due. With deletions off every file that was there still is |
| SyncClient.SyncRun.KeepCopy | src/platform/sync_client.c:686-696 | there is a recovery copy of the working file under its own hash, made now or before, and the answer is whether it verifies |
| SyncClient.SyncRun.ReceiveChosen | src/platform/sync_client.c:708-713 | versions received one after the other under a choice, the accepted content following the server's side: succeeds exactly when each reception does, and otherwise stops at the first that is refused; with deletions off every file that was there still is |
| SyncClient.SyncRun.Resolve | src/platform/sync_client.c:676-722 | a choice goes through exactly when the sides are as inspected, the copy verifies, what is pending ends with the head and each reception succeeds; from a reachable state with the device bound, the blocks at hand and deletions allowed or not involved, it goes through if and only if the sides are as inspected and nothing is pending before a head acknowledged already. It ends with the head recorded, kept content untouched or the head's in place, and the outbox free of the file; refused half way or carried through, no content is lost |
| SyncClient.SyncRun.SendPacket | src/platform/sync_client.c:219-234 | one packet of at most 128 KiB and its answer: the offset moves on by exactly that packet, or, once at most, everything starts again at zero |
| SyncClient.SyncRun.SendBlock | src/platform/sync_client.c:217-235 | the loop ends, by resets left and then bytes left, with the block published |
| SyncClient.SyncRun.UploadBlock | src/platform/sync_client.c:200-237 | from any shorter partial file, rubbish included, a cached block ends verified and published after at most one reset; it fails only when cache or broker refuse it |
| SyncClient.SyncRun.UploadAll | src/platform/sync_client.c:195-238 | a plan is uploaded exactly when the cache supplies all of it |
| SyncClient.SyncRun.Publish | src/platform/sync_client.c:165-255 | a publication succeeds exactly when the broker admits and commits the version and the cache supplies what it asks for, ends in the specified state, and leaves on disk only states from which publishing again ends the same |
| SyncClient.SyncRun.Repair | src/platform/sync_client.c:165-255 | a repair succeeds exactly when the broker accepts it and the cache supplies it; the commit it ends with changes nothing |
| SyncClient.SyncRun.CutInput | src/platform/sync_client.c:108-118 | the byte loop keeps chunker and block buffer in step and never overruns the buffer |
| SyncClient.SyncRun.CutFile | src/platform/sync_client.c:96-130 | however a file is split into reads, the chunks listed and cached are those of the whole file |
| SyncClient.SyncRun.Snapshot | src/platform/sync_client.c:85-143 | the outbox gets the version of the file, with the content's digest and size and the parent it was given, and the cache holds all its blocks |
| SyncPoints.LoggedRecovers | src/platform/sync_client.c:351-354 | from every state a successful reception, under any choice, has left on disk, receiving again ends where it ended, device and broker |
| Uploading.Answered | src/platform/sync_client.c:219-234 | between two packets the partial file is shorter than its block, after at most one reset, and a true prefix from then on |
| Chunker.ChunksCover | src/platform/sync_client.c:96-130 | the chunks one after the other are the file; none is empty or above 2 MiB, and all but the last have at least 128 KiB |
| Chunker.ChunksAreThe | src/core/sync_model.c:86-93 | a list of parts each cut at the first possible place is the chunk list of what it adds up to |
| Chunker.ChunksCutEarly | src/core/sync_model.c:86-93 | and the chunk list is such a list |
| Chunker.ChunksAfterCut | src/platform/sync_client.c:96-126 | after a cut point the chunks are those of the rest of the file |
| Chunker.SharedSuffix | src/platform/sync_client.c:96-126 | files that go on alike after a cut point have identical chunks from there on |
| Chunker.RollSame | src/core/sync_model.c:86-93 | the low bits of the 64-bit hash, up to nineteen, depend on as many last bytes only |
| Chunker.CutsByLastBytes | src/core/sync_model.c:86-93 | past the minimum and below the maximum, whether a chunk ends depends on its last 19 bytes only |
| Chunker.Resynchronizes | src/core/sync_model.c:86-93 | a cut made by the hash 19 bytes or more into common bytes is made in the other file too, and all chunks after it are the same |
| Chunker.SyncChunker.Boundary | src/core/sync_model.c:86-93 | a chunk ends at 2 MiB, or from 128 KiB on where the low nineteen bits of the 64-bit hash are zero; the hash is the old one doubled plus the byte's gear, and starts again after a cut |
| Snapshots.VersionTruthful | src/platform/sync_client.c:85-143 | the version of any file is valid and true exactly when it lists no more than 100000 chunks |
| Snapshots.RecutAndRebuild | src/platform/sync_client.c:405-418 | cutting a file at its version's sizes gives the same blocks, and the blocks put together are the file |
| Wire.Read32Put32 | src/platform/sync_wire.c:35-41 | a stored length is read back |
| Wire.Put32Read32 | src/platform/sync_wire.c:35-41 | and four bytes are the stored form of the length they read as |
| Wire.LengthBytes | src/platform/sync_wire.c:35-41 | a length is stored most significant byte first |
| Wire.FrameIs | sync/server/chunksync/wire.py:23-41 | a payload travels compressed when that saves more than five percent, and is labelled with its size; the frame is both lengths, the header and the data |
| Wire.DecodesExactly | sync/server/chunksync/wire.py:44-67 | which frames are refused, by header length, payload size and limits of 128 KiB and 16 MiB, and what the others give |
| Wire.RoundTrip | sync/server/chunksync/wire.py:23-67 | either side decodes what the other, or itself, encoded, compressed or not, and leaves what follows |
| Wire.CutShort | sync/server/chunksync/wire.py:13-20 | a frame cut short anywhere is neither a message nor refused |
| Wire.RoundTripExactly | sync/server/chunksync/wire.py:52-53 | a message comes back unchanged exactly when it uses neither of the keys framing adds |
| Wire.SidesAgree | src/platform/sync_wire.c:126-165 | the two decoders agree, but for when a malformed header in a frame that is cut short is refused |
| Wire.StreamCut | sync/server/chunksync/wire.py:13-67 | a stream of messages cut anywhere decodes to exactly the messages whose frames are complete |
| Wire.StreamRoundTrip | sync/server/chunksync/wire.py:13-67 | a whole stream decodes to the whole list, in both directions |
| WireEndpoints.ReadExact | sync/server/chunksync/wire.py:13-20 | exactly the bytes asked for through any short reads, or nothing when the stream ends first |
| WireEndpoints.ReadMessage | sync/server/chunksync/wire.py:44-67 | takes off the stream what decoding its bytes gives, for the server |
| WireEndpoints.WriteMessage | sync/server/chunksync/wire.py:23-41 | writes the frame, or nothing when payload or header is too large |
| WireEndpoints.PutLength | src/platform/sync_wire.c:37-41 | stores the four bytes of a length in place, most significant first, and no others |
| WireEndpoints.SendRequest | src/platform/sync_wire.c:84-125 | the client writes the frame through its prefix buffer, or nothing when the payload is too large or the header exceeds the limit its database is opened with |
| WireEndpoints.ReceiveReply | src/platform/sync_wire.c:126-165 | takes off the stream what decoding its bytes gives, for the client |
| Publication.ConfigStore.Prepare | src/platform/config_json.c:186-196 | a slot whose document already holds the text is left alone, and no file written; else the text is in a scratch file |
| Publication.ConfigStore.KeepLegacy | src/platform/config_json.c:202-206 | the first save copies the legacy document and never replaces an earlier copy |
| Publication.ConfigStore.PublishAll | src/platform/config_json.c:212-215 | up to the first failure every changed document is new with its old bytes in the rollback file; the others are as before |
| Publication.ConfigStore.Undo | src/platform/config_json.c:218-221 | every published document whose restoring move succeeds is as before |
| Publication.ConfigStore.Save | src/platform/config_json.c:207-221 | documents and database all new, the machine's own settings in the local document and the shared ones in the others, or the database as before and documents put back |
| Publication.ConfigStore.Commit | src/platform/config_json.c:197-224 | for every combination of failures: all new, or the database as before and every document as before except those whose restoring move failed, whose old bytes are in their rollback files. After a save `local.json` holds the local settings and `runtime.json` the shared ones, after a first save both baselines as well, with the legacy document copied |
| Terminal.OutStep | src/ui/ssh_view.c:256-260 | every step keeps: accepted input is what was written, then what is pending, then what is queued |
| Terminal.InStep | src/ui/ssh_view.c:262-263 | every step keeps: received output is what was drained, then what is queued, then what the worker holds |
| Terminal.FitStep | src/ui/ssh_view.c:257-263 | queues stay within 65536 bytes, and the room noted under the lock is still there at the append |
| Terminal.DrainStep | src/ui/ssh_view.c:246-263 | queued output always has a drain posted, about to be posted or under way |
| Terminal.RunInv | src/ui/ssh_view.c:229-267 | all four over every interleaving of the two threads |
| Terminal.InterleavingsKeepOrder | src/ui/ssh_view.c:229-267 | from the start, in every interleaving: written is a prefix of accepted, drained of received, and at rest nothing received is missing on the screen |
| Terminal.TwoRounds | src/ui/ssh_view.c:252-261 | progress: from any state two rounds in which the connection takes enough end with everything accepted written |
| Terminal.RoundPumps | src/ui/ssh_view.c:252-267 | what a round writes, queues, reads and announces, in terms of the buffers alone |
| Terminal.RemoteView.TerminalSend | src/ui/ssh_view.c:229-233 | input is queued whole or not at all |
| Terminal.RemoteView.TerminalDrain | src/ui/ssh_view.c:245-248 | a drain shows all queued output and clears the posted flag |
| Terminal.RemoteView.TakeInput | src/ui/ssh_view.c:255-258 | with the last input gone the whole queue is taken and the queue is empty, otherwise nothing moves; the room noted is all the free output space |
| Terminal.RemoteView.AppendOutput | src/ui/ssh_view.c:263 | what was read is appended, which always fits |
| Terminal.RemoteView.TerminalPump | src/ui/ssh_view.c:252-267 | an undisturbed round writes what the connection takes of the pending bytes, the whole queue when nothing was pending and enough is taken, and reads everything delivered that fits |

## Left out

- Authentication, device registration, dataset names, the publishers table, `ping`, `status` and `overview`: no property here depends on them.
- Crashes inside broker handlers, in particular a partial upload of full length, which `object_offset` would count as uploaded; in the model a partial file is always shorter than its block.
- Free-space checks, timestamps, progress, statistics, cancellation and logs.
- Server migration (`src/platform/sync_server.c`) and the control file that gates a queue: `control.py` is not part of this model.
- `scan`, `inspect`, excludes, path length and case rules, and the temporary file of a reception, which no reader of the state sees.
- A user editing a file between the two probes of one reception: a reception looks at the working file once.
- SyncClient.SyncRun.Resolve: leaves out the publication of kept content that follows it; `SyncClient.SyncRun.Snapshot` and `SyncClient.SyncRun.Publish` are that.
- SyncClient.SyncRun.Publish: says which states are on disk on the way only for true partial uploads; in reachable states all are.
- SyncGuarantees.RecordedChain: stated for a device that makes no explicit choice, because receptions under one skip the tests it rests on.
- Interference.OthersRun: the other devices' steps happen between receptions, not inside one; `RecoveryRun.ReceptionRecoversAmong` covers a broker used by others inside an interrupted one.
- Publication.ConfigStore.Commit: takes `ReplaceFileW` to be atomic and does not cover power loss in the middle of a save.
- Terminal.RemoteView.TerminalPump: resizing and the wait for events are not modelled, and a failing call is the separate step that ends the session.
- The verdicts of `inspect` compared with receptions: the code makes no such promise.
- Pair settings, command presets and validators: small bounded arrays that would only add easy members.
