# Stowmark's snapshot store, verified

Stowmark keeps snapshots in a content-addressed store: a file is cut into parts, each part is compressed, hashed,
optionally encrypted and put under the hash of its encoding; a manifest lists the parts of every file and is published
last. Encrypted objects live in numbered generations. The configuration names the generation in use and holds its
symmetric key, wrapped for one RSA key pair; rewrap changes the wrapping, rekey copies everything into the next
generation under a new key.

This project models that store in Dafny 4.11 and proves what it is for: **a published snapshot restores to the bytes
that were captured.** The theorems are about every sequence of inits, creates, rewraps and rekeys, each with any number
of workers in any schedule, each failing, cancelled or crashing between any two of its steps, and tried again. The
operations themselves are methods over a bucket; `Operations.Repository` shows that whatever is called, the state it is
left in is one of such a sequence, so that verifying and restoring do what the theorems say.

For snapshots made without a key there is no exception (`PlainDurability.PlainDurable`). For snapshots made under a key
there are four (`Durability.Durable`): the encryption is removed by force while there are encrypted objects; a rotation
aborts after its configuration write took effect, and deletes from the generation it has just committed; format one
puts a file it could not seal; or the generation number wraps around at 2^64. The first three do lose snapshots
(`Removal.SomeHistoryLoses`, `RekeyProtocol.LostReplyCanDelete`, `CreatePool.PublishedRestores`).

## How it is built

- `Primitives` is the library code underneath - SHA-256, the codecs, AES-256-GCM (section 5.2 of RFC 5116), RSA-OAEP
  (section 7.1 of RFC 8017) - as one record of functions. Everything is stated for all records that satisfy the laws in
  `Lawful`: the hash is injective and gives hex text, decoding inverts encoding, opening inverts sealing and the tag
  adds 16 bytes, only the matching private key unwraps, fingerprints are injective. `LawfulPrimitivesExist` exhibits
  such a record, so no theorem is about an empty set.
- `AesGcm`, `Files`, `Replacing`, `S3Objects`, `Configs`, `Repositories`, `Manifests`, `Restores`, `CreateWorkers`,
  `Creates`, `RekeyPool`, `ReKeys`, `VerifyWorkers` and `Verifies` are the code that changes things step by step, as
  classes and methods: the frame encoder with its buffer and once flag, the chunk loop over 64-bit integers, the bucket
  with its puts, listings and deletes, the configuration objects changed in place, the worker pools turn by turn, the
  operations. Each method is proved against
  functions on values; what the pools do is shown to be runs of the protocols below. What an operation comes to is then
  said once more without those functions, in terms of the request, the stored record and the store alone - what is
  reported and what lands, what is read back under an id, whom a configuration gives its secret - together with when
  it succeeds.
- `Layout` and `ObjectKeys` are the texts of keys (path cleaning included), `Objects` is the store as a map from
  (namespace, hash) to bytes with what restoring and verifying mean, `Sorting` is the order of a listing, and `Sums` are
  sums over a sequence.
- `RekeyProtocol`, `CreatePool` and `VerifyPool` are the concurrent parts, as state machines over the actions of the
  feeder, the workers, the caller and the environment. A run is any sequence of enabled actions; a crash is a run that
  stops. `CreateSizes`, `CreateAgreement` and `CreateLiveness` add size accounting, agreement of any two schedules,
  progress and termination.
- `Lifetime` composes them into the life of a repository, and `Histories` puts histories together. `PlainDurability`
  proves what holds in every state of every history, `Durability` what holds besides in those without the exceptions,
  `Removal` what the first exception can lead to, and `Recovery` that a rotation and a snapshot can be brought to their
  end from every such state. `Operations` ties the methods to the histories.

The environment is an argument: answers of the service, entropy, the point at which a context is done, the schedule.
The S3 repository is the reference store: a put replaces one object in one piece.

## What the code does not do

Some statements one would like to make are false of the code. Each is kept as the code has it, with the exact condition
under which it holds.

- A rotation leaves the configured generation complete exactly when no abort deletes anything after a config write that
  took effect but was reported as failed (`RekeyProtocol.ConfiguredIsComplete`): that abort deletes the generation the
  stored configuration already names. Every rotation of anything has such a run (`RekeyProtocol.LostReplyCanDelete`).
  README.md:684-686 of the repository promises completeness without the condition.
- `rekeyObjects` can return no error with nothing copied, when the caller's context is cancelled
  (`RekeyProtocol.GroupCanSkipEverything`); only the look at the context inside the config write keeps such a run from
  committing. When neither an error nor a cancellation was met, no hash was skipped
  (`RekeyProtocol.JoinedMeansCopied`).
- In format two a create can be published exactly when the object of every empty file is already in the store
  (`CreateLiveness.PublishableExactly`): the chunk of an empty file has size zero, which opening it refuses.
- README.md:636 of the repository says that files larger than 8 MiB are split and smaller ones stored as a single
  object. The code splits files of exactly 8 MiB too, and in format two gives smaller files a list of one chunk;
  `Files.Calculated` follows the code.
- Restoring into another folder replaces every occurrence of the source path: a file lands where it belongs exactly when
  the source is not met again further down its path (`Replacing.MovesExactly`), and two files can collide
  (`Restores.FilesCanCollide`).
- A hash is given back by the listing of its generation only if it can be a directory and a file name
  (`ObjectKeys.RecoveredExactly`); hashes that begin with two dots cannot (`ObjectKeys.DottedHashIsLost`). The text of
  a SHA-256 hash always can.
- A verification cancelled by its caller can report success without having looked at anything
  (`VerifyPool.CancelledReportCanBePartial`).
- A second init with force and without a public key drops the encryption (`Configs.ReinitKeepsKeys` says exactly when
  the keys are kept). When it is then set up anew, the new first generation is where the old one was, and a create takes
  an object for its own when the name is right (`Removal.NameIsTrusted`). Over any store, the file of a published
  snapshot verifies exactly when those of its objects that were there before the create open to what their names say,
  and those it put are sealed (`CreatePool.PublishedRestores`, `PlainDurability.PublishedVerifiesExactly`). A caller
  can verify beforehand.
  `Removal.SomeHistoryLoses` has a history that ends in a snapshot nobody can restore.
- Format one drops the error of sealing a file: without entropy it puts an empty object and counts it as saved, and what
  it puts opens to the file's encoding exactly when no key is needed or there was entropy (`Objects.WholeBlobOpens`).
  With entropy at hand every schedule seals what it puts (`CreateWorkers.FollowIsSealed`).

## Model

| member | source | states |
|---|---|---|
| Operations.Repository.Restore | internal/domain/snapshot/restore.go:16-50 | there is a result exactly when the private key unlocks the stored encryption, or none is given, and the manifest can be read; it is that of restoring each of its files from the store, and a restore without one changes nothing. In a repository on which the operations were called in any order, as long as no exception happened, a published snapshot restored with its key and without trouble, in place or into any folder, has no failure, changes nothing but the targets, and leaves at each the captured bytes of the last file that goes there, below a movable source its own |
| Operations.Repository.Verify | internal/domain/snapshot/verifier.go:26-112 | without key or manifest there is no result; left alone, there is none exactly when some file's first part that is not good cannot be told to be missing or another one, and otherwise it counts every file and has, per path and reason, as many failures as files that fail so in the store; of a published snapshot, as long as no exception happened, every file and no failure |
| Operations.Repository.Init | internal/domain/repository/init.go:16-44 | read back, the configuration is what was wished for: level in range or the type's default, format two for an unknown version, keys in generation one for the owner of the public key alone; over a configuration, id and format stay, and so do the keys unless their removal is forced, with the warning that goes with it; it succeeds exactly when the level exists, the context is not done and the service answers. The repository is left in a state of a history, as careful as before unless encryption is removed by force over encrypted objects |
| Operations.Repository.Create | internal/domain/snapshot/create.go:35-139 | on success the manifest read back under the request's id has its id, source and time, the configuration's compression and every source as the format records it, with all objects there under the key's namespace; other snapshots and all objects there were stay as they are; left alone, it succeeds exactly when there is no empty file that format two would have to store. The repository is left in a state of a history, as careful as before unless format one is left without entropy under a key |
| Operations.Repository.Rewrap | internal/domain/repository/rewrap.go:16-44 | it succeeds exactly when the private key opens the encryption there is and the write is acknowledged; the configuration stays, or it is the same but that the owner of the new public key, and nobody else, gets the secret the old key got; the repository is left in a state of a history, as careful as before |
| Operations.Repository.ReKey | internal/domain/snapshot/rekey.go:24-112 | without key, encryption, answers or entropy nothing changes; after a gentle history, with all of them, the workers left alone and the write and the deletes answered, it succeeds at any generation but the last; then the configuration names the next generation and wraps the new secret for the owner of the new public key alone, every object of the old generation is in the new one with its content, and the old one is gone. The repository is left in a state of a history, as careful as before unless the generation number wraps around or a config write is not acknowledged and the cleanup deletes anything |
| Operations.CreateAndRestore | internal/domain/snapshot/create.go:129-139 | what a create published from below the request's source path, restored into any folder with the same key, lands at the rest of each path below the folder with its bytes, as long as the source's path is not met again further down |
| Durability.Durable | internal/domain/snapshot/rekey.go:24-112 | after any history of inits, creates, rewraps and rekeys, finished, failed, cancelled or crashed anywhere, in which the encryption is not removed by force while there are encrypted objects, no abort deletes after a config write that took effect but was reported as failed, format one seals what it puts, and generation numbers stay below 2^64, every file of every published snapshot restores, in the key mode it was made in and with the private key the configuration names, to exactly the captured bytes, and verifies |
| Durability.DurableInAnyFolder | internal/domain/snapshot/restore.go:39-48 | the same for a whole snapshot and any destination folder: no file fails, nothing but the targets changes on the disk, each target holds the captured bytes of the last file that goes there; if every file lies below the source, whose path is not met again further down, each lands at its own place with its own bytes |
| Durability.ConfiguredGenerationIsReadable | internal/domain/snapshot/rekey.go:72-112 | in every state of a history without forced removal over encrypted objects, unsealed put or wrap-around, aborted commits included, each object of the configured generation opens under the configured key to what its hash names, leftovers in the next generation are a subset of its hashes, and later generations are empty |
| Durability.CommittedRotationIsExact | internal/domain/snapshot/rekey.go:94-111 | whatever broken rotations left behind, a committed one has only the old generation's hashes in the new one, each with the old content under the new key, and all of them unless an abort deletes some after the commit |
| PlainDurability.OnlyTheNamedKey | internal/domain/encryption/decrypt_symmetric_key.go:15-31 | in every state of every history whatsoever the configuration gives the symmetric key to the private key whose fingerprint it holds, and nothing to any other |
| Durability.EventKeeps | internal/domain/snapshot/create.go:35-139 | every step of every operation but a forced removal over encrypted objects, an unsealed put and a wrap-around keeps configuration, objects and the operation under way good, and every step but an abort that deletes what is committed keeps every snapshot |
| PlainDurability.PlainDurable | internal/domain/snapshot/create.go:35-139 | after any history whatsoever, forced removals and aborted commits included, every file of every snapshot made without a key restores to the captured bytes and verifies |
| PlainDurability.PublishedVerifiesExactly | internal/domain/snapshot/create.go:84-137 | in any history whatsoever, over whatever is stored and under any key, a create that published lists every file as captured, and a file verifies if and only if those of its objects that were there before open to what their names say and the new ones are sealed; then it restores to the captured bytes |
| PlainDurability.EventKeepsPlain | internal/domain/repository/update_config.go:5-20 | every step of every operation keeps the configuration readable and the plain snapshots |
| Removal.RemovalLoses | internal/domain/repository/update_config.go:8-10 | when encryption is removed by force and set up anew, a small file whose object was in the first generation can be published in a snapshot that verifies if and only if the object opens under the new key to what its name says; when it does not open, the holder of the new key gets an error |
| Removal.SomeHistoryLoses | internal/domain/repository/update_config.go:8-10 | for a lawful cipher, a history of an init, a keyed snapshot, a forced removal, an init with other keys and a second snapshot of the same file ends with that snapshot lost |
| Removal.NameIsTrusted | internal/domain/snapshot/create.go:173-203 | a create of a small file whose object's name is taken publishes what it captured without looking at the object or writing anything |
| Removal.StartingOverKeepsObjects | internal/domain/encryption/create_encryption_config.go:14-33 | removing the encryption and setting it up anew starts again at generation one under the new key, over the objects that were there |
| Recovery.RotationCanBeRetried | internal/domain/snapshot/rekey.go:24-112 | after any history without forced removal over encrypted objects, unsealed put or wrap-around the holder of the named private key can run a rotation of what is stored to its commit: the configuration names the next generation and wraps the new key, every object is there with its content, and the history stays as careful as it was |
| Recovery.SnapshotCanBeTaken | internal/domain/snapshot/create.go:35-139 | after any history whatsoever a snapshot of any files, in either key mode, can be taken over what is stored and published: its record is that of the captured files, and all their objects are there; in format two of all but empty files that are not stored yet |
| RekeyProtocol.StepInv | internal/domain/snapshot/rekey.go:114-165 | every action of feeder, workers, caller and environment keeps the rotation's invariant |
| RekeyProtocol.ConfiguredIsComplete | internal/domain/snapshot/rekey.go:72-112 | in every state a rotation can be left in, the generation the stored config names opens under its key and holds listed hashes only, no other namespace is touched, and it holds all listed hashes if and only if nothing was deleted by an abort after a config write that was reported as failed |
| RekeyProtocol.CommitMeansAllCopied | internal/domain/snapshot/rekey.go:90-100 | a commit means that every listed hash was read and written without error, for every schedule of 1 to 8 workers |
| RekeyProtocol.CommitKeepsContent | internal/domain/snapshot/rekey.go:167-194 | after a commit each object of the new generation opens to what it opened to under the old key, and all are there unless an abort deletes after the commit |
| RekeyProtocol.GroupCanSkipEverything | internal/domain/snapshot/rekey.go:119-164 | a run exists in which the group returns no error with nothing copied, and it cannot commit |
| RekeyProtocol.JoinedMeansCopied | internal/domain/snapshot/rekey.go:119-164 | when the group returned no error and the context is not done, every listed hash was copied |
| RekeyProtocol.LostReplyCanDelete | internal/domain/snapshot/rekey.go:74-104 | every rotation of at least one object has a run that leaves the configured generation incomplete |
| RekeyProtocol.RunsAreBounded | internal/domain/snapshot/rekey.go:114-165 | no schedule goes on for ever: a measure of the state bounds its length |
| RekeyProtocol.Progress | internal/domain/snapshot/rekey.go:119-164 | no state but the final one is stuck, also after an error or a cancellation |
| RekeyProtocol.ReachesCommit | internal/domain/snapshot/rekey.go:90-100 | from wherever a run without error or cancellation is, some schedule in which nothing is deleted commits it |
| RekeyProtocol.UndisturbedCommits | internal/domain/snapshot/rekey.go:90-104 | left alone, every schedule of a rotation that comes to its end has committed |
| RekeyPool.Pool.RekeyObjects | internal/domain/snapshot/rekey.go:114-165 | the feeder and the workers, as methods over the repository's objects, reach under every schedule exactly the state the protocol's actions give, and it is finished if and only if everybody returned |
| RekeyPool.Pool.ReadObject | internal/domain/snapshot/rekey.go:174-182 | reading an object of the current generation is the protocol's read exactly when the object is there, opens, is answered for and the context is not done; otherwise its failure |
| RekeyPool.Pool.SaveObject | internal/domain/snapshot/rekey.go:184-193 | sealing and putting an object into the next generation is the protocol's write, its write with a lost reply, or its failure, by the environment's answer |
| RekeyPool.WorkFailsExactly | internal/domain/snapshot/rekey.go:167-194 | a worker fails if and only if the context is done, its object is not answered for, not there or does not open, or cannot be sealed, or its write is not acknowledged |
| RekeyPool.SmoothRun | internal/domain/snapshot/rekey.go:114-165 | left alone over a sound generation, no worker fails, whatever the schedule |
| RekeyPool.SomeScheduleEnds | internal/domain/snapshot/rekey.go:114-165 | from wherever an undisturbed pool is, some schedule without trouble lets everybody return |
| ReKeys.ReKey.Do | internal/domain/snapshot/rekey.go:24-112 | whatever is stored, the operation is a run of the protocol from beginning to end; it begins if and only if key, encryption, new keys, configuration and listing can be had, and commits if and only if then the pool ended without error and undone context, and the config write happened; the configuration stays or advances by one generation, wrapping the new secret for its owner alone; left alone over a repository as gentle histories leave it, it succeeds, and then every object is carried over and the old generation gone; nothing is lost but after a config write that was not acknowledged, and then exactly when the cleanup deletes something |
| ReKeys.ReKey.Copy | internal/domain/snapshot/rekey.go:90-92 | the pool ends in the protocol's state for its schedule, by a run of the protocol |
| ReKeys.ReKey.Commit | internal/domain/snapshot/rekey.go:94-104 | the config write happens exactly when the context is not done and it is not refused, and replaces generation, wrapped key and fingerprint together |
| ReKeys.ReKey.Prune | internal/domain/snapshot/rekey.go:74-88 | only objects of the generation go, and without an error all of them; nothing changes exactly when the first delete fails or there is nothing to delete |
| ReKeys.WholeRun | internal/domain/snapshot/rekey.go:74-111 | pool, commit and deletes make one run of the protocol; it does harm if and only if an unacknowledged commit is followed by a delete |
| ReKeys.LeavesWell | internal/domain/snapshot/rekey.go:24-112 | what a run leaves of a repository as gentle histories have it: configuration good for the objects, every snapshot kept and a committed generation moved as a whole unless a delete follows a lost reply; what is there of the new generation is as it was, and plain snapshots are kept, always |
| ReKeys.CommittedCarries | internal/domain/snapshot/rekey.go:90-111 | when the old generation is gone after a commit, each of its objects is in the next one with the same content under the new key, nothing else is there, and every object elsewhere is as it was |
| ReKeys.RekeyIsHistory | internal/domain/snapshot/rekey.go:24-112 | what the operation leaves is where its run leads the repository in its life |
| CreatePool.StepInv | internal/domain/snapshot/create.go:84-127 | every action of feeder, workers, caller and environment keeps the create's invariant, workers racing on one hash included |
| CreatePool.PublishedRestores | internal/domain/snapshot/create.go:84-137 | in every state of every schedule, over any store, a published manifest lists every file as calculated and every object it refers to is there; a file verifies if and only if those of its objects that were there before open to what their names say and the new ones are sealed, and then it restores to the captured bytes; in a sound namespace a run that seals what it puts has all of its files so |
| CreateAgreement.SchedulesAgree | internal/domain/snapshot/create.go:84-137 | any two published creates over the same store, whatever is in it, with any numbers of workers in any schedules - one of them the sequential one - publish the same files and leave the same objects, with the same opened content if both seal what they put; what was there is untouched |
| CreateAgreement.PublishedIsComplete | internal/domain/snapshot/create.go:84-137 | a published create leaves the objects that were there, the places of all parts of all files, and nothing else |
| CreateSizes.SizeAccounting | internal/domain/snapshot/create.go:106-106 | the total size lies between the size of the distinct new objects and the size of all part occurrences that were missing at the start; with one worker it is the former |
| CreateLiveness.RunsAreBounded | internal/domain/snapshot/create.go:88-127 | no schedule of a create goes on for ever |
| CreateLiveness.Progress | internal/domain/snapshot/create.go:88-127 | no state of a create but an ended one is stuck: there is a next step that is no fault, or the failure of a worker that has an empty file to store in format two |
| CreateLiveness.ReachesPublish | internal/domain/snapshot/create.go:84-137 | from wherever a create without error or cancellation is, some schedule publishes its manifest if every empty file's object is stored, or the format is one |
| CreateLiveness.UndisturbedPublishes | internal/domain/snapshot/create.go:84-137 | left alone, every schedule of a create that comes to its end has published |
| CreateLiveness.PublishableExactly | internal/domain/snapshot/hash_calculator_factory.go:67-76 | some schedule publishes the manifest if and only if, in format two, every empty file's object is already stored |
| CreateWorkers.Pool.SaveFiles | internal/domain/snapshot/create.go:84-127 | the feeder and any number of workers, as methods over the repository's objects, reach under every schedule exactly the state the protocol's actions give, and it is finished if and only if everybody returned |
| CreateWorkers.FollowIsRun | internal/domain/snapshot/create.go:84-127 | whatever schedule and environment do, what feeder and workers do is a run of the protocol |
| CreateWorkers.FollowIsSealed | internal/infra/s3/object_repository.go:455-461 | with entropy whenever format one encrypts, what the workers do under any schedule is a run that seals everything it puts |
| CreateWorkers.Pool.SavePart | internal/domain/snapshot/create.go:173-203 | saving an object or a chunk is the protocol's hit, its miss and put, its miss and put with a lost reply, or a failure of the lookup or the put |
| CreateWorkers.PartOutcome | internal/domain/snapshot/create.go:173-203 | at most the part's own object is added, named by its content or unsealed, and only where nothing was; without an error it is there, and its size is counted exactly when it was missing |
| CreateWorkers.Pool.SaveFileObjects | internal/domain/snapshot/create.go:141-156 | the parts of a file in order, as a run of the protocol, up to the first that cannot be saved; without an error every part is in the store |
| CreateWorkers.Pool.LookUp | internal/domain/snapshot/create.go:174-181 | asking for an object is the protocol's hit if it is there, its miss if not, and a failure if the context is done or there is no answer |
| CreateWorkers.Pool.Store | internal/domain/snapshot/create.go:183-202 | putting a part is the protocol's put, its put with a lost reply or its failure, by the environment's answer, in both formats |
| CreateWorkers.Pool.Calculate | internal/domain/snapshot/create.go:91-93 | calculating the record of a file is the protocol's hash, or its failure when the file cannot be read or the context is done in time |
| CreateWorkers.WorkFailsExactly | internal/domain/snapshot/create.go:88-127 | a busy worker fails if and only if the context is done, its file cannot be read, its lookup is not answered, its put is not acknowledged or cannot be sealed, or format two has an empty file to put |
| CreateWorkers.SomeScheduleEnds | internal/domain/snapshot/create.go:88-127 | from wherever a pool is, also after an error, some schedule without trouble lets everybody return |
| Creates.UntroubledIsClean | internal/domain/snapshot/create.go:84-131 | left alone, with no empty file that format two would have to store, every schedule that lets everybody return ends without an error |
| Creates.CleanExactly | internal/domain/snapshot/create.go:84-131 | left alone, a schedule that lets everybody return ends without an error if and only if format two has no empty file to store |
| Creates.CleanIsComplete | internal/domain/snapshot/create.go:129-139 | a pool that ends clean fills a manifest that lists every file as captured, with all objects there and the total between its bounds, exact for one worker |
| Creates.Create.Do | internal/domain/snapshot/create.go:35-139 | it can begin if and only if the sources, the configuration and, where a private key is given, the key it unlocks can be had. The pool ends as the protocol does under the schedule; the manifest is written exactly when every worker left without error, the context is not done and the put is not refused. Read back under the request's id it has the request's id, source and time, the configuration's compression, and every source as the format records it, and all objects are there; other snapshots and all objects there were stay. Left alone, it succeeds exactly when there is no empty file that format two would have to store. The total is between its bounds |
| Creates.CreateIsHistory | internal/domain/snapshot/create.go:35-139 | what the operation leaves, objects and published manifest, is where its run leads the repository in its life, carefully if it seals what it puts |
| VerifyPool.CheckObject | internal/domain/snapshot/verifier.go:137-175 | good if and only if the object is there, is read whole, opens and is what its hash names; missing if and only if there is none; a mismatch if and only if it opens to something else; an error if and only if the hash is a short one, the object does not open, or reading it is not answered or breaks off |
| VerifyPool.CheckFile | internal/domain/snapshot/verifier.go:114-135 | the loop over the chunks stops at the first that does not check out or cannot be read through |
| VerifyPool.CheckUnderAgrees | internal/domain/snapshot/verifier.go:114-175 | whatever reading does, a check that comes to a verdict comes to the one the stored objects call for |
| VerifyWorkers.Pool.VerifyFiles | internal/domain/snapshot/verifier.go:59-104 | the feeder and any number of workers, as methods over the repository's objects, reach under every schedule exactly the state the protocol's actions give, and it is finished if and only if everybody returned |
| VerifyWorkers.Pool.CheckOne | internal/domain/snapshot/verifier.go:65-84 | a worker's file is the protocol's check if it can be read through, and its break if not |
| VerifyWorkers.VerdictReported | internal/domain/snapshot/verifier.go:65-84 | a worker's turn ends its file: an error fails the pool, a reason is a failure under the file's path, anything else is counted |
| VerifyWorkers.FollowIsRun | internal/domain/snapshot/verifier.go:59-104 | whatever schedule and environment do, what feeder and workers do is a run of the protocol |
| VerifyWorkers.SomeScheduleEnds | internal/domain/snapshot/verifier.go:88-104 | from wherever a pool is, whatever is stored, some schedule without trouble lets everybody return |
| Verifies.Verify | internal/domain/snapshot/verifier.go:26-112 | there is a result exactly when key and manifest can be had, the pool finished and no worker met an error; it is a report on any store that shows what the bucket has of the parts, so on what is stored, of all files unless the caller cancels; left alone, there is none if and only if some file's first part that is not good has a hash that is no key, or is there and does not open |
| Verifies.DurableVerifies | internal/domain/snapshot/verifier.go:26-112 | after any careful history, an uncancelled, answered verification of a published snapshot with its key reports every file and no failure, for every number of workers and every schedule that lets them return |
| VerifyPool.VerifyOneByOne | internal/domain/snapshot/verifier.go:65-84 | the sequential loop: a result if and only if every file can be read through without an error, with the failures of all files in order |
| VerifyPool.RefinesOneByOne | internal/domain/snapshot/verifier.go:59-112 | uncancelled by its caller, any schedule that returns a result counts every file and has the failures of the sequential loop, as a multiset |
| VerifyPool.ReportsHandedOut | internal/domain/snapshot/verifier.go:96-111 | any result covers exactly the files handed out, and all of them unless the caller cancelled |
| VerifyPool.ResultReports | internal/domain/snapshot/verifier.go:59-112 | whatever the schedule, a result counts the files handed out, all of which could be told good or bad, and has for each path and reason as many failures as files among them that fail so in the store |
| VerifyPool.ErrorsAreReturned | internal/domain/snapshot/verifier.go:71-76 | an error is returned in place of a result if and only if some step of the schedule met one |
| VerifyPool.CancelledReportCanBePartial | internal/domain/snapshot/verifier.go:96-111 | cancelled by its caller, a verification can report success without having looked at a file |
| VerifyPool.CleanReportMeansRestorable | internal/domain/snapshot/verifier.go:26-112 | whatever the store holds, a clean uncancelled report on captured files means that each restores to the captured bytes |
| VerifyPool.GatherAnyOrder | internal/domain/snapshot/verifier.go:78-79 | the order in which files are reported does not change which failures there are |
| VerifyPool.RunsAreBounded | internal/domain/snapshot/verifier.go:88-104 | no schedule of a verification goes on for ever |
| VerifyPool.Progress | internal/domain/snapshot/verifier.go:88-104 | no state of a verification but an ended one is stuck, also after an error |
| Objects.VerifyFileExact | internal/domain/snapshot/verifier.go:114-175 | a file verifies if and only if every part is in the store, opens, and is what its hash names |
| Objects.VerifyObjectExact | internal/domain/snapshot/verifier.go:137-175 | each of the five verdicts on an object, and the lack of one, by its hash, whether it is there, and what it opens to |
| Objects.VerifiesExactly | internal/domain/snapshot/verifier.go:114-175 | the verdict on a file is that of its first part that is not good - nothing named, not there, or another one - and there is none if and only if that part has a hash that is no key, or is there and does not open |
| Objects.RestoresExactly | internal/infra/s3/object_repository.go:520-601 | a file restores to some data if and only if every part is there, opens and decodes, the pieces in order are the data, and the data has the recorded size |
| Objects.VerifyImpliesRestore | internal/infra/s3/object_repository.go:520-662 | whatever the store holds, a captured file that verifies restores to the captured bytes |
| Objects.PartsRestore | internal/infra/s3/object_repository.go:563-581 | parts that are held, restored in record order, concatenate to their sections |
| Objects.SoundFileRestores | internal/infra/s3/object_repository.go:520-601 | in a sound namespace that has all its parts a captured file restores and verifies |
| S3Objects.Encode | internal/infra/object/encoder.go:24-99 | what is returned is the blob of the section's encoding, and only if the encoding has the expected hash |
| S3Objects.ObjectRepository.SaveChunk | internal/infra/s3/object_repository.go:341-374 | a chunk is stored, as a blob that opens to the encoding its hash names, exactly when it is inside the file, its encoding has the hash, it can be sealed and the put is not refused; no other object changes |
| S3Objects.ObjectRepository.Save | internal/infra/s3/object_repository.go:376-492 | a whole file is put, under whatever hash is given, only where nothing is, and losing that race counts as saved; without entropy under a key an empty object is put |
| Objects.WholeBlobOpens | internal/infra/s3/object_repository.go:440-470 | what format one puts opens to the file's encoding if and only if no key is needed or there was entropy |
| S3Objects.ObjectRepository.AlreadyExists | internal/infra/s3/object_repository.go:494-518 | the answer is whether the bucket has the key of the hash, or an error for a done context, a short hash or no answer |
| S3Objects.ObjectRepository.ReadObject | internal/infra/s3/object_repository.go:297-339 | a missing object is told apart from every other error; otherwise what the object opens to |
| S3Objects.ObjectRepository.ReadEncryptedObject | internal/infra/s3/object_repository.go:90-147 | an object of a generation, opened under its key |
| S3Objects.ObjectRepository.SaveRekeyedObject | internal/infra/s3/object_repository.go:149-241 | the content is sealed under the new key and put into the new generation in one piece, or not at all |
| S3Objects.ObjectRepository.RestoreObject | internal/infra/s3/object_repository.go:520-601 | the destination holds the concatenated parts exactly when every fetch is answered, they restore and have the recorded size; once open, any error - a done context, a service error, a missing or unreadable part, a wrong size - removes it |
| S3Objects.FileUnderAgrees | internal/infra/s3/object_repository.go:520-601 | a restore that succeeds, or that the service answers throughout, gives what the stored objects give |
| S3Objects.ObjectRepository.RestoreObjectPart | internal/infra/s3/object_repository.go:603-662 | fetch, decrypt and decode of one part is what the bucket shows under its hash, unless the context is done or the service does not answer |
| S3Objects.ObjectRepository.ListEncryptedObjects | internal/infra/s3/object_repository.go:40-88 | exactly the hashes of the generation, sorted, without duplicates, over any paging |
| S3Objects.ObjectRepository.DeleteEncryptedGeneration | internal/infra/s3/object_repository.go:243-288 | without an error the generation is gone; in any case no object of another generation, no plain object and no other key is touched; nothing changes exactly when the first delete fails or there is nothing to delete |
| S3Objects.GenerationGone | internal/infra/s3/object_repository.go:243-288 | deleting every key under the prefix of a generation removes exactly its objects from the store |
| ObjectKeys.ObjectKeyInjective | internal/infra/object/destination.go:18-42 | no two objects share a key: not across hashes, generations, or the plain namespace |
| ObjectKeys.KeyLayout | internal/infra/object/destination.go:18-42 | below a cleaned repository path, the key of an object is its folder - objects, or objects/encrypted and the generation - and the two pieces of its hash |
| ObjectKeys.RekeyKeyAgrees | internal/infra/s3/object_repository.go:99-107 | a rekey names the same keys as the paths objects are saved under |
| ObjectKeys.PrefixExact | internal/infra/object/encrypted_generation_path.go:11-26 | a key is under a generation's prefix if and only if it is a key of that generation (1 is no prefix of 10) |
| ObjectKeys.DecimalInjective | internal/infra/object/encrypted_generation_path.go:11-26 | different generations have different texts |
| ObjectKeys.ListedExact | internal/infra/s3/object_repository.go:65-83 | a listed key gives a hash if and only if what follows the prefix is its two pieces around a slash |
| ObjectKeys.RecoveredExactly | internal/infra/s3/object_repository.go:40-115 | a hash is given back by the listing of the generation it was saved in if and only if it is an ordinary one |
| ObjectKeys.DottedHashIsLost | internal/infra/object/destination.go:18-42 | a slash-free hash of length five that the listing does not give back |
| AesGcm.FrameRoundTrip | internal/infra/encrypt/aesgc_handler.go:25-51 | decoding a whole frame gives the buffered plaintext; its first twelve bytes are the nonce and the rest opens under it |
| AesGcm.DecodesExactly | internal/infra/encrypt/aesgc_handler.go:25-51 | what decodes, and to what: under a key of 16, 24 or 32 bytes, twelve bytes of nonce and what opens under it |
| AesGcm.WriteFull | internal/infra/encrypt/aesgc_handler.go:103-118 | over any short writes all of the data is written, or a prefix of it and an error |
| AesGcm.Encoder.Close | internal/infra/encrypt/aesgc_handler.go:53-101 | the first close puts down one frame, or a prefix of one and an error; later ones put down nothing |
| AesGcm.CloseRepeatedly | internal/infra/encrypt/aesgc_handler.go:53-101 | however often it is closed, a successful encoder puts down exactly one frame |
| Files.CalculateChunks | internal/infra/disk/source_explorer.go:24-96 | over 64-bit integers the loop never overflows and gives exactly the planned chunks, or stops where the context is done |
| Files.CapacityIsCeiling | internal/infra/disk/source_explorer.go:50-60 | the planned capacity is the file size divided by the chunk size, rounded up, when their sum less one fits in 64 bits |
| Files.ChunkCount | internal/infra/disk/source_explorer.go:60-93 | the number of chunks is that quotient |
| Files.ChunkSizes | internal/infra/disk/source_explorer.go:60-93 | chunks are not empty and all but the last are full |
| Files.ChunksTile | internal/infra/disk/source_explorer.go:60-93 | chunks are contiguous, cover the file, and each is named by the hash of its encoded section |
| Files.ChunksOpen | internal/infra/chunkio/source.go:11-54 | every chunk the loop produces passes the range checks of opening it |
| Files.OpenSourceExact | internal/infra/chunkio/source.go:11-54 | the checks admit exactly the non-empty ranges inside the file, without overflow |
| Files.CalculatedParts | internal/domain/snapshot/hash_calculator_factory.go:42-79 | in both formats the recorded parts, in order, are the file |
| Files.FormatTwoShape | internal/domain/snapshot/hash_calculator_factory.go:59-79 | below 8 MiB one chunk under the hash of the file; from there on chunks of 4 MiB, as many as the size divided by that, rounded up |
| Files.CalculateFormatOne | internal/domain/snapshot/hash_calculator_factory.go:42-49 | the file record gets the hash of the whole encoding, or stays when the file cannot be read or the context is done |
| Files.CalculateFormatTwo | internal/domain/snapshot/hash_calculator_factory.go:59-79 | the file record gets chunks from 8 MiB on, and below that one chunk and the hash, or stays when the file cannot be read or the context is done before the last chunk |
| Files.GetHashes | internal/infra/object/hash.go:10-46 | the hashes of the parts in record order, or an error if any is too short |
| Replacing.MovesExactly | internal/domain/snapshot/file.go:36-38 | a path below the source moves with it if and only if the source does not occur again in the rest, or source and destination are the same |
| Restores.MovesTogether | internal/domain/snapshot/restore.go:39-42 | below such a source distinct files stay distinct |
| Restores.FilesCanCollide | internal/domain/snapshot/file.go:36-38 | two different files of one manifest that are restored to the same path |
| Restores.SnapshotMoves | internal/domain/snapshot/restore.go:39-48 | restored from a sound store that has its parts, no file of a snapshot fails and each target has the captured bytes of the last file that goes there, which below a movable source is its own |
| Restores.RestoreAll | internal/domain/snapshot/restore.go:39-48 | every file is tried, whatever becomes of the others. The files reported are exactly those that do not restore, in order, each once, with the path it was tried at and what went wrong first; at each path is what the last file opened there restores to, nothing if that failed, and what was there before if no file was opened there |
| Restores.RestoredOnce | internal/domain/snapshot/restore.go:39-48 | what is reported and what is on the disk is determined by what the store, the manifest and the trouble make of each file |
| Restores.AttemptExact | internal/infra/s3/object_repository.go:520-601 | where a file goes, whether its destination is opened, to what data it restores, and with what fault it fails, each if and only if, in terms of the store, the answers and the context |
| Restores.ReportTells | internal/domain/snapshot/restore.go:43-47 | nothing is reported if and only if every file restores, and every file that does not is in the report under its path |
| Restores.LostPartFails | internal/infra/s3/object_repository.go:603-662 | a part that is not there, does not open or does not decode keeps its file from being restored |
| Restores.OthersStay | internal/domain/snapshot/restore.go:39-48 | whatever comes of the attempts, nothing on the disk changes but their targets |
| Restores.RestoringReadsTheStore | internal/infra/s3/object_repository.go:603-662 | for hashes that are ordinary names, what restoring sees in the bucket is the store |
| Restores.StoreShowsAll | internal/infra/s3/object_repository.go:603-662 | for a manifest whose hashes are ordinary names, the repository's store shows what reading the bucket gets of every part |
| Restores.Restore | internal/domain/snapshot/restore.go:16-50 | there is a result exactly when the key and the manifest can be had; the rest is as for the list of files of the stored manifest |
| Manifests.ManifestRoundTrip | internal/infra/model/manifest.go:33-102 | a manifest survives its record, omitted members included, if and only if its compression is one a repository can have |
| Manifests.ManifestMembers | internal/infra/model/manifest.go:73-102 | every member of a manifest, its files and their chunks is where its record has it, and what is empty is left out |
| Manifests.NewManifest | internal/infra/model/manifest.go:73-102 | the nested loops fill in the record of every file and chunk |
| Manifests.BuildManifestDomain | internal/infra/model/manifest.go:33-71 | the nested loops rebuild every file and chunk, or an error for a compression that is not known |
| Manifests.ManifestRepository.Save | internal/infra/s3/manifest_repository.go:28-64 | one put of the whole record after a look at the context |
| Manifests.ManifestRepository.Get | internal/infra/s3/manifest_repository.go:155-174 | what was put under the id, rebuilt |
| Configs.ConfigRoundTrip | internal/infra/model/config.go:33-55 | a configuration survives its record if and only if its level is normal and its algorithm names are the defaults; what is read is always so |
| Configs.ConfigMembers | internal/infra/model/config.go:13-31 | every member of a configuration is where its record has it |
| Configs.NormalisedIsFixed | internal/domain/repository/compression.go:67-102 | normalising a level gives a normal one, and exactly the normal ones are given back unchanged |
| Configs.NormalisedExactly | internal/domain/repository/compression.go:67-102 | the levels of each type, and the one taken when none is given |
| Configs.CompressionSetting.Validate | internal/domain/repository/compression.go:67-94 | an absent level becomes the default, a level out of range is refused, a level where there is none is dropped |
| Configs.ReinitKeepsKeys | internal/domain/repository/update_config.go:5-20 | a second init keeps id and format, takes the new compression, and keeps the keys if and only if it is not a forced removal |
| Configs.UpdateConfig | internal/domain/repository/update_config.go:5-20 | the updated configuration and the warning that goes with each case |
| Configs.MarshalConfig | internal/infra/codec/config.go:13-46 | the context is looked at before anything else; otherwise the record |
| Configs.FolderRepository.CreateConfig | internal/infra/s3/folder_repository_repository.go:72-94 | the stored record is replaced in one piece, or stays |
| Configs.FolderRepository.GetConfig | internal/infra/s3/folder_repository_repository.go:96-145 | the configuration the stored record stands for |
| Repositories.CreateEncryptionConfig | internal/domain/encryption/create_encryption_config.go:14-33 | a new secret in generation one, given to the owner of the public key and nobody else |
| Repositories.GetSymmetricKey | internal/domain/snapshot/create.go:158-171 | no private key means no key, also in an encrypted repository; a private key without encryption is an error |
| Repositories.Handle | internal/domain/snapshot/symmetric_key.go:20-39 | key and generation come from one stored configuration |
| Repositories.KeyOf | internal/domain/snapshot/symmetric_key.go:20-39 | no private key means plain objects; with one, the key is what it unwraps of the stored encryption, of that generation, and there is none if it unwraps nothing or none is stored |
| Repositories.Init | internal/domain/repository/init.go:16-44 | over no configuration the one read back is exactly what was wanted; over one, id and format stay, the compression is the wanted one, and the keys stay unless their removal is forced; the warnings say which; it succeeds exactly when what is stored can be read, the context is not done and the service answers; a failing init has written all of the new configuration or none of it |
| Repositories.Rewrap | internal/domain/repository/rewrap.go:16-44 | the stored configuration is unchanged, or the same but that the owner of the new public key, and nobody else, gets the secret the old key got, of the same generation; it succeeds exactly when the private key opens the encryption there is and the write is acknowledged |
| Repositories.RewrapKeepsTheSecret | internal/domain/repository/rewrap.go:16-44 | the new private key gives the secret the old one gave, in the same generation, and the old one gives nothing unless it is the same pair |

## Left out

- The GCS, SSH, SMB, WebDAV and local disk repositories: near copies of the S3 one around other clients. The local one truncates in place, so a put there is not one step and the store invariants are not claimed for it.
- JSON, base64 and UUID texts: records are modelled member by member, wrapped keys as bytes, ids as values; a text that is no UUID is an absent id.
- Config createdAt, which rebuilding sets anew, file modes, and logging.
- Listing snapshots (`ManifestRepository.List`) and the S3 key of a manifest: manifests are a map from snapshot id.
- Restoring a single file (`restore_file.go`): a search in front of the same restore.
- The cache in `DecryptSymmetricKey`: a fresh one is built per operation, so the key is unwrapped per operation.
- Exploring the source tree: the captured files are given, and do not change during a create.
- The bytes of the codecs and ciphers, the length 64 of a hash (an injective hash of all byte strings has no fixed length), and decryption failing under a wrong symmetric key (only `Removal.RemovalLoses` is about it, and takes it as a hypothesis; wrapped keys do fail under a wrong private key).
- The error of `HashCalculatorFactory.Handle` for an unknown format: every configuration an operation makes has a known one.
- The savedFiles slice: the unsynchronised append at internal/domain/snapshot/create.go:108 is not modelled, and a create does not report FileCount.
- Two operations at once: README.md:607-608 of the repository rules them out, so `Lifetime` interleaves inside one operation only.
- Durability.Durable: histories that remove the encryption by force over encrypted objects, put an unsealed object, rotate past generation 2^64 - 1, or abort a committed rotation are excluded for snapshots made under a key; `PlainDurability.PublishedVerifiesExactly` and `RekeyProtocol.ConfiguredIsComplete` say what is left in them.
- ReKeys.ReKey.Do: generated secrets are taken to have 32 bytes, as the generator's have.
- CreatePool.StepInv: worker failures may happen at any busy moment, so cancellation seen inside hashing or saving is one of them rather than an action of its own.
- Creates.Create.Do: writing the local temporary file of format one is taken to succeed, and file sizes plus 8 MiB to fit in 64 bits.
- CreateWorkers.Pool.SaveFiles: a call of the repository is one step, so nothing interleaves inside a lookup or a put.
- VerifyWorkers.Pool.CheckOne: a file is one step, as nothing it reads changes; a context done half-way is a read that breaks off.
- Repositories.Rewrap: the crash on a repository without encryption is an error that writes nothing; reading the key files and the entropy either succeeds or is an absent argument.
