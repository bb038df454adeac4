# Hocus agent: a verified model

Hocus runs development workspaces in virtual machines. Its agent keeps disk images in a block
registry, coordinates work through Temporal workflows and a database, and follows git repositories.
This project models the parts of the agent where several processes share state, or where a search, a
diff or a rewrite has to be right for every input, and proves what they promise. Two further
components are modelled because they rewrite state in place: the loader of the initial configuration
and the ssh config kept by the editor extension.

Protocols are state machines. A `State`, a `Step` with the condition under which it may happen
(`Enabled`) and its effect (`Apply`), and a `Run`, any sequence of steps by any number of processes.
An inductive invariant is kept by every step (`...Keeps`), and the theorems hold at every point of every
run. What runs between two `await`s, and one database transaction, is one step. Code that changes
state in place is a class or a method with a loop, tied to a function that says what it computes;
the theorems are about that function. Errors are values of `Result`.

| file | models |
|---|---|
| `Wrappers.dfy` | options and results |
| `RegistryModel.dfy` | configs of images and containers, and how loading, creating and committing make them |
| `RegistryProtocol.dfy` | all writers, removers and collectors of the registry, step by step |
| `RegistryContents.dfy` | where configs and files of the registry come from |
| `RegistryProgress.dfy` | what operations on the registry achieve when nobody interrupts them |
| `RegistryDangling.dfy` | what a removal at the wrong time leads to |
| `RegistryStore.dfy`, `RegistryCommits.dfy` | the collector and the commit as they run alone, with crashes; the commit as a run of the protocol |
| `OciLayout.dfy` | export of an image to an OCI directory, and loading it back |
| `ConfigConsensus.dfy` | the one-shot config write |
| `Words.dfy`, `WordNumbers.dfy`, `LunHash.dfy` | the hash of an id, as arithmetic and on words of bits |
| `LunSearch.dfy` | the search for a free LUN |
| `LockProtocol.dfy`, `LockReturns.dfy` | the lock workflow and its clients; how the lock comes back |
| `SharedWorkflow.dfy`, `SharedWorkflowRuns.dfy` | one child workflow shared by many waiters |
| `PrebuildReservations.dfy`, `ReservationsEnd.dfy` | creating workspaces from a prebuild while it is archived; how reservations end |
| `ReservedRegistry.dfy` | the reservations and the registry together |
| `ArchivablePrebuilds.dfy`, `ArchiveMonitor.dfy` | which prebuilds may be archived, and the monitors that archive them |
| `VmTasks.dfy` | tasks that cancel each other on the first failure |
| `InitConfig.dfy`, `InitKeys.dfy`, `InitReload.dfy`, `InitRoundTrip.dfy` | loading, reloading and dumping the initial configuration, and which key pair a repository gets |
| `GitRemotes.dfy`, `GitBranches.dfy` | the diff of remotes, and the branch tables |
| `IpAllocator.dfy`, `IpAddresses.dfy` | blocks of addresses for virtual machines |
| `FileLocks.dfy` | mutexes by path with a count of callers |
| `MarkedText.dfy`, `SshConfig.dfy`, `SshHosts.dfy` | the ssh config and its marker-delimited blocks, and what ssh reads in it |

## What the proofs found

For each of these there is a run or an input that shows it, and a lemma over all inputs or runs that says when it
happens.

- The LUN search can give up although a free LUN lies on the orbit it walks. It gives up if and only if the first
  `tail + cycle - tail % cycle` attempts are lost, and these are the whole orbit if and only if the cycle length divides
  the tail length (`LunSearch.GivesUpExactlyWhen`, `LunSearch.WholeOrbitIsTried`, `LunSearch.CanMissAFreeLun`). The search
  shown to miss a free LUN walks the orbit of a small sample hash (`LunSearch.FreeLunIsMissed`); whether an id of the
  agent has such an orbit under the real hash is not settled.
- The guard on line 49 of the shared workflow compares an id with the word CANCEL. The counter of cancelled requests is
  right if and only if no id signals anything after a CANCEL. The child is cancelled while somebody waits if and only if,
  when as many CANCEL signals have been superseded as ids wait for the first time, some do wait
  (`SharedWorkflow.WrittenCounterIsRight`, `SharedWorkflowRuns.CancelledWhileSomebodyWaits`,
  `SharedWorkflow.DoubleCancelFiresTooEarly`).
- A call of `withLock` that is cancelled while it waits releases an empty id. Its request is still served, and the lock
  then stays with it until its whole workflow has ended (`LockProtocol.EndedCallKeepsTheLock`, `LockProtocol.CancelledCallIsServed`).
- The row lock in `reservePrebuildEvent` names the reservation table with the id of the event, so two reservations are
  not kept apart. All is well if no check of one side falls between check and insertion of the other. Wherever one does, on
  an event with both images and no valid reservation, the run can go on, with no reservation expiring, to where an image is
  removed while a container is cloned from it (`PrebuildReservations.StepKeeps`, `PrebuildReservations.OverlapCollides`,
  `PrebuildReservations.UnlockedReservationsCollide`).
- A container can refer to a collected layer if its base image is removed while it is created. From every point of a run
  where a creation is about to take the lock, which is free, and only its base refers to one of its layers, the removal can
  lead there
  (`RegistryDangling.UndisciplinedRemovalDangles`, `RegistryDangling.RemovedBaseDangles`). The reservations of prebuilds
  rule it out for workspaces (`ReservedRegistry.RemovalsAreDisciplined`).
- Archiving takes the newest prebuild from a branch if and only if a listed prebuild's git object is linked to the branch
  and the prebuild is then its newest; the lock between monitor and synchronisation rules this out
  (`ArchiveMonitor.LinkTakesNewest`, `ArchiveMonitor.UnlockedLinkIsLost`, `ArchiveMonitor.BranchStaysUpToDate`).
- Loading the initial configuration again changes nothing if and only if every listed public key has a row
  after the first load. A key that is not written as it is derived gets none, unless another private key leads to it,
  and every load then adds another key pair (`InitReload.SecondLoadChangesNothing`, `InitReload.CommentedKeyIsStoredTwice`).
- A workspace named `/a` is confused with the end marker of a workspace `a`. A connection renews its own
  block and keeps all others if and only if no such block comes first
  (`SshConfig.ConnectionRenews`, `SshConfig.LeadingSlashIsMisled`).

## Assumptions

- Every attempt to deliver a signal delivers it once or fails, and one that failed delivered nothing. An activity that
  signals is attempted up to ten times, so one call can signal more than once: a waiter of the shared workflow may signal
  the same twice, and a lock request may arrive again (`AskAgain`). Fresh uuids, and ids of database rows, never repeat.
  Digests are deterministic.
- Shared workflow: ids are uuids; the id `cancel` is the one that the written guard treats differently (`Treated`).
- Registry: content is not removed while an operation has read its config and waits for the lock, nor a container while
  one is created under its id, and a container is not created again while its removal is under way. This is
  `Disciplined`. For the images of a prebuild nothing is assumed of the removal: `ReservedRegistry` proves it, provided
  that no one but the workspaces and the archival uses these images.
- Reservations: no reserve call of one side checks between check and insertion of the other side (`ChecksApart`), and both
  sides finish before their reservations expire (`InTime`).
- Archiving: links are not added to an object while a monitor of the project has listed a prebuild of it (`Locked`), which
  is what the lock around both is for. Prebuilds are archived by monitors; a user who archives one by hand is not modelled.
- Lists of remotes name each branch once, as the listing of a git server does.
- The order of strings used for sorting is only assumed to be asymmetric. Parsing of keys and the test for git
  urls are parameters.

## Model

| member | source | states |
|---|---|---|
| RegistryModel.LoadIsCoherent | app/agent/block-registry/registry.service.ts:519-596 | a config is made from a manifest if and only if every layer is supported and the repository is known or neither lazy pulling nor a layer that is not on disk needs it; the config lists the manifest's layers in order and refers to no other |
| RegistryModel.CommitIsCoherent | app/agent/block-registry/registry.service.ts:843-871 | a coherent container can always be committed, and the image has the old layers plus the new one, in lowers and manifest alike |
| RegistryModel.LoadedAsAsked | app/agent/block-registry/registry.service.ts:519-596 | an image pulls its layers as the load asked for; of a lazily pulled manifest exactly the layers below the limit, ten mebibytes if none is given, are fetched at once |
| RegistryModel.DerivedAsBase | app/agent/block-registry/registry.service.ts:736-747 | a container pulls as its base does and has its layers, and so does an image committed from it, with one more local layer |
| RegistryProtocol.StepKeeps | app/agent/block-registry/registry.service.ts:449-1498 | every step of every load, create, commit, removal and collection keeps the invariant of the registry |
| RegistryProtocol.StepKeepsFiles | app/agent/block-registry/registry.service.ts:610-629 | and that every local layer of a config has its commit file, or of a config still to be written will have it |
| RegistryProtocol.NothingDangles | app/agent/block-registry/registry.service.ts:1425-1498 | in every interleaving every config refers only to layer and container directories that exist, every local layer it lists has its commit file, and it lists the layers of its manifest in order |
| RegistryProtocol.CommitConfigNeverFails | app/agent/block-registry/registry.service.ts:843-871 | any container in the registry can be committed: the config of the new image never causes an error |
| RegistryProtocol.CollectionIsExact | app/agent/block-registry/registry.service.ts:1425-1498 | a collection with no concurrent removal leaves exactly the referenced layers and containers, whatever else runs |
| RegistryProtocol.StepReplacesNothing | app/agent/block-registry/registry.service.ts:725-749 | no step changes a config, or the files of a container that has one |
| RegistryProtocol.ContainerDataIsKept | app/agent/block-registry/registry.service.ts:725-749 | while a container stays in the registry, creating it again never replaces its data |
| RegistryContents.DataIsGiven | app/agent/block-registry/registry.service.ts:729-731 | in every interleaving the data file of a container is the data of some creation under its id, or was there at the start |
| RegistryContents.IndexIsGiven | app/agent/block-registry/registry.service.ts:729-731 | and its index file the index |
| RegistryContents.CreationKeepsItsFiles | app/agent/block-registry/registry.service.ts:702-750 | a creation that found no directory, and whose directory nobody else touched, ends with its own data and its own index |
| RegistryContents.LayerFileIsGiven | app/agent/block-registry/registry.service.ts:610-629 | the commit file of a layer is one that some load or commit brought for its digest, or was there at the start |
| RegistryContents.ConfigIsGiven | app/agent/block-registry/registry.service.ts:519-596 | every config is what some load, creation or commit under its id made of its arguments and of the configs it read |
| RegistryContents.PullsAsSomeLoad | app/agent/block-registry/registry.service.ts:843-871 | in a registry that started empty everything pulls its layers as some load asked for, through any creations and commits, or does not pull at all |
| RegistryProgress.LoadGoesThrough | app/agent/block-registry/registry.service.ts:431-629 | from every point of a run, a load that nobody interrupts writes its config, or changes none if the id is taken, has a file on disk for every layer it brought, and gives the lock back |
| RegistryProgress.CommitGoesThrough | app/agent/block-registry/registry.service.ts:766-877 | such a commit writes the config of the image and links its layer, and goes on to remove the container exactly if it was asked to |
| RegistryProgress.CreationGoesThrough | app/agent/block-registry/registry.service.ts:702-750 | such a creation under a free id makes the container with its own data and index and a config derived from that of its base, and touches nothing else |
| RegistryProgress.RemovalGoesThrough | app/agent/block-registry/registry.service.ts:1378-1392 | a removal takes the config, and of a container also the directory, and nothing else |
| RegistryProgress.RemovalResumes | app/agent/block-registry/registry.service.ts:1378-1392 | a removal interrupted in the middle leaves a directory without files and no config, and run again it ends where an uninterrupted one ends |
| RegistryDangling.UndisciplinedRemovalDangles | app/agent/block-registry/registry.service.ts:702-740 | from every point of a run where a creation is about to take the free lock and only its base refers to one of its layers, removing the base is undisciplined and can lead to a config whose layer was collected |
| RegistryDangling.RemovedBaseDangles | app/agent/block-registry/registry.service.ts:702-704 | a run in which the base is removed after its config was read, and the new container refers to a collected layer |
| RegistryStore.AttemptSucceeds | app/agent/block-registry/registry.service.ts:766-877 | a complete attempt to commit succeeds from wherever earlier attempts stopped |
| RegistryStore.AttemptStaysBetween | app/agent/block-registry/registry.service.ts:766-877 | every crash point of an attempt leaves a registry between the old and the committed one |
| RegistryStore.CollectionStaysBetween | app/agent/block-registry/registry.service.ts:1425-1498 | so does a collection between two attempts |
| RegistryStore.CommitSurvivesCrashes | app/agent/block-registry/registry.service.ts:766-877 | after any crashes and collections, one complete attempt gives the registry of an uninterrupted commit up to one collection: the image with one more layer, and no container |
| RegistryCommits.CommitTraceIsARun | app/agent/block-registry/registry.service.ts:766-877 | from every point of a run where the lock is free, a commit with removal that nobody interrupts passes through exactly the registries of the trace, in their order: what may be found after a crash of one process is what others may see |
| RegistryStore.CollectionKeepsOrder | app/agent/block-registry/registry.service.ts:1425-1498 | a collection keeps every config backed, leaves exactly what is referenced, and is idempotent |
| RegistryStore.BlockRegistry.FindReferences | app/agent/block-registry/registry.service.ts:1440-1470 | the loop over all configs gathers exactly the referenced layers and containers |
| RegistryStore.BlockRegistry.GarbageCollect | app/agent/block-registry/registry.service.ts:1425-1498 | the two sweeps give the collected registry and touch no config |
| RegistryStore.BlockRegistry.LoadLocalLayer | app/agent/block-registry/registry.service.ts:610-629 | a layer is linked once and never replaced |
| RegistryStore.BlockRegistry.CommitContainer | app/agent/block-registry/registry.service.ts:766-877 | runs the whole commit: result and registry are those of the trace whose every prefix is a crash point |
| OciLayout.LinkLayers | app/agent/block-registry/registry.service.ts:1590-1625 | linking the layer files fails exactly when two targets coincide |
| OciLayout.ExportImage | app/agent/block-registry/registry.service.ts:1546-1635 | succeeds exactly on an image with a manifest, with all layer files and distinct digests, and then writes the specified layout |
| OciLayout.ExportIsComplete | app/agent/block-registry/registry.service.ts:1546-1635 | the index leads back to the manifest, and every descriptor of the manifest has its blob |
| OciLayout.ExportedBytes | app/agent/block-registry/registry.service.ts:1590-1625 | the exported blob of a local layer has the bytes of its commit file, that of a lazy one those of its file or what the source repository serves |
| OciLayout.ExportThenLoad | app/agent/block-registry/registry.service.ts:431-490 | exporting and loading under a fresh id gives an image with the same layers in the same order, all on disk, and changes nothing else |
| OciLayout.BytesTravel | app/agent/block-registry/registry.service.ts:431-490 | exported and loaded into the same or another registry, a layer that has no file there gets the bytes it had |
| ConfigConsensus.PathIsStable | app/agent/block-registry/registry.service.ts:640-660 | the path holds its content for ever from the first write on |
| ConfigConsensus.WinnersAgree | app/agent/block-registry/registry.service.ts:640-660 | all writers that return true, at whatever time, proposed the same content, which the path holds; a writer returns true exactly when it proposed that content |
| ConfigConsensus.LosersLostToAnother | app/agent/block-registry/registry.service.ts:640-660 | a writer returns false only when another writer's different content is on the path for good |
| ConfigConsensus.WriterReturns | app/agent/block-registry/registry.service.ts:640-660 | a writer waits for nobody: after two or three steps of its own it returns, true exactly if the path was free or held its content |
| LunHash.WLunMask | app/agent/block-registry/registry.service.ts:916-918 | the masked comparison is the test that the second byte is 0xc1 |
| LunHash.WLunBits | app/agent/block-registry/registry.service.ts:916-918 | an id is reserved for that reason exactly if its bits 8 to 15 are those of 0xc100 |
| LunHash.ReservedBits | app/agent/block-registry/registry.service.ts:1113-1114 | an id is reserved exactly if all its 64 bits are set or its bits 8 to 15 are those of 0xc100 |
| Words.XorBits | app/agent/block-registry/registry.service.ts:905-908 | the exclusive or of two numbers of any size has exactly the bits that one of them has |
| LunHash.TcmuIdToLun | app/agent/block-registry/registry.service.ts:899-912 | the loop over the characters computes the two 64-bit values, stirred from the last character to the first; the result has the bits of the hash computed on words |
| LunHash.HashIsWordHash | app/agent/block-registry/registry.service.ts:899-912 | the hash, an expression of products and remainders, is the one computed on words of 64 bits by shifts, additions that drop the last carry, and exclusive ors |
| LunHash.SampleHashes | app/agent/block-registry/registry.service.ts:899-912 | the hashes of the empty id and of 0 |
| LunHash.DecimalReadsBack | app/agent/block-registry/registry.service.ts:1101-1107 | a LUN in decimal reads back as the number, in digits and without leading zeros |
| LunSearch.RepetitionMeets | app/agent/block-registry/registry.service.ts:1129-1148 | a repeated id makes tortoise x_k and hare x_(2k+1) meet before its second occurrence |
| LunSearch.NoMeetNoRepetition | app/agent/block-registry/registry.service.ts:1129-1148 | while they have not met no id came up twice |
| LunSearch.FindLun | app/agent/block-registry/registry.service.ts:1098-1150 | the search terminates for every hash, tries successive ids of the orbit and none twice, links under the first LUN it can claim and within the tries up to the first meeting, and raises the cycle error only after all of these are lost |
| LunSearch.FindLunFor | app/agent/block-registry/registry.service.ts:1098-1150 | the search for an object starts at the hash of its id, as computed on words, and goes on with hashes of decimal numbers; all of the above holds of it |
| LunSearch.GivesUpExactlyWhen | app/agent/block-registry/registry.service.ts:1098-1150 | the cycle error is raised if and only if all tries up to the first meeting are lost, and then exactly these were made |
| LunSearch.RhoExists | app/agent/block-registry/registry.service.ts:1098-1150 | every orbit is a tail leading into a cycle |
| LunSearch.GivesUpAfter | app/agent/block-registry/registry.service.ts:1101-1107 | the exact number of tries before the cycle error |
| LunSearch.WholeOrbitIsTried | app/agent/block-registry/registry.service.ts:1101-1107 | the whole orbit was tried if and only if the cycle length divides the tail length, in particular if the start lies on the cycle |
| LunSearch.CanMissAFreeLun | app/agent/block-registry/registry.service.ts:1129-1148 | some owners make the search give up beside a LUN it could claim if and only if an id that is not reserved lies on the untried part of the orbit |
| LunSearch.FreeLunIsMissed | app/agent/block-registry/registry.service.ts:1129-1148 | the search, run on an orbit of three ids of which two are owned, gives up although the third could be claimed |
| LockProtocol.LockWorkflow.AwaitRelease | app/agent/workflows/mutex/index.ts:92-107 | the wait ends with the release id received, with a holder found final, or not yet; all requests and release ids that came meanwhile are kept |
| LockProtocol.LockWorkflow.Serving | app/agent/workflows/mutex/index.ts:57-113 | requests served followed by the queue are those carried over followed by the arrivals; each is served under its turn's release id, and the lock comes back, by that id or because the holder is final, before the next is served |
| LockProtocol.StepKeeps | app/agent/workflows/mutex/index.ts:37-143 | every step of the lock workflow, of its clients and of the messages between them keeps the invariant |
| LockProtocol.MutualExclusion | app/agent/workflows/mutex/index.ts:118-143 | at most one call whose workflow has not ended is inside its body, with cancelled waiters, late or empty release ids, forced releases and continue-as-new |
| LockProtocol.HolderIsKnown | app/agent/workflows/mutex/index.ts:64-107 | whoever runs its body is the one the lock workflow takes to hold the lock, under the release id it has |
| LockProtocol.TakenBackInTime | app/agent/workflows/mutex/index.ts:93-107 | the lock is taken back only when the holder's call or workflow has ended, and without its release id only in the second case |
| LockProtocol.ServedInOrder | app/agent/workflows/mutex/index.ts:45-112 | served requests followed by the queue are the arrivals, none lost or overtaken, across any hand-overs; and all of different calls, unless an attempt to signal one was repeated |
| LockProtocol.AheadFalls | app/agent/workflows/mutex/index.ts:57-67 | every serve step takes away one request ahead of a pending one, or serves it; no other step moves it |
| LockProtocol.ServeIsEnabled | app/agent/workflows/mutex/index.ts:57-107 | once the holder has released or is final, the next request can be served in at most two further steps of the lock workflow |
| LockReturns.LockComesBack | app/agent/workflows/mutex/index.ts:133-141 | once a call that was granted the lock has sent its release, then at any later time the lock was taken back, or can be after at most one more signal, whether or not any workflow ends |
| LockReturns.HolderHandsOver | app/agent/workflows/mutex/index.ts:57-143 | whenever a call is inside its body it can leave, and the first waiting request is served without any workflow ending |
| LockReturns.ServedCallEnters | app/agent/workflows/mutex/index.ts:72-78 | a call that waits when its request is served can receive the lock and enter its body |
| LockReturns.ForgetsTheId | app/agent/workflows/mutex/index.ts:108 | after the lock came back its release id is not remembered, unless it arrives once more |
| LockProtocol.CancelledWaiterKeepsTheLock | app/agent/workflows/mutex/index.ts:133-141 | a call cancelled before it got the lock never releases it: it is taken back from it only when its workflow has ended |
| LockProtocol.EndedCallKeepsTheLock | app/agent/workflows/mutex/index.ts:64-107 | whenever a request is served after its call has ended, the lock comes back only after the workflow of the call has ended |
| LockProtocol.CancelledCallIsServed | app/agent/workflows/mutex/index.ts:133-141 | a run in which a cancelled waiter has sent its release, is served all the same, and keeps the lock from another call |
| SharedWorkflow.SharedRun.HandleSignal | app/agent/workflows/shared-workflow/index.ts:47-63 | with either guard, the handler replaces or appends the request of an id, counts a CANCEL and fires |
| SharedWorkflow.SharedRun.Drain | app/agent/workflows/shared-workflow/index.ts:101-111 | the loop empties the queue and sends the result to the WAIT entries in the order they are taken off it, also those that arrive or change while it sends, and to no CANCEL entry |
| SharedWorkflow.DrainedInOrder | app/agent/workflows/shared-workflow/index.ts:102-106 | whatever arrives during the drain, the entries in the queue are taken off first and in their order |
| SharedWorkflow.WrittenCounterIsRight | app/agent/workflows/shared-workflow/index.ts:47-63 | with the written guard the counter equals the number of CANCEL entries if and only if no id signals anything after a CANCEL |
| SharedWorkflow.MeantCounterIsRight | app/agent/workflows/shared-workflow/index.ts:47-63 | with the meant guard it does after any signals |
| SharedWorkflow.WrittenFiresTooEarly | app/agent/workflows/shared-workflow/index.ts:49-62 | the trigger fires on a queue in which somebody waits if and only if, when superseded CANCEL signals first reach the number of ids that wait, that number is positive |
| SharedWorkflow.DoubleCancelFiresTooEarly | app/agent/workflows/shared-workflow/index.ts:49-62 | with the written guard a second CANCEL of one waiter fires the trigger while another still waits |
| SharedWorkflowRuns.CancelledOnlyWhenNobodyWaits | app/agent/workflows/shared-workflow/index.ts:60-94 | the child is cancelled only if every registered request was CANCEL when the trigger fired |
| SharedWorkflowRuns.CancelledWhileSomebodyWaits | app/agent/workflows/shared-workflow/index.ts:60-94 | with the written guard, when the child is cancelled somebody waited as the trigger fired if and only if the same holds of the signals |
| SharedWorkflowRuns.DrainedWaitersAreReleased | app/agent/workflows/shared-workflow/index.ts:101-112 | after any signals, with either guard: ids are drained in the order they entered the queue, the one result is sent once for every entry drained as WAIT and never for one drained as CANCEL, and at the end the queue is empty |
| SharedWorkflowRuns.SteadyWaiterIsReleased | app/agent/workflows/shared-workflow/index.ts:101-112 | at the end an id that signalled only WAIT was sent the result once for every time it entered the queue, whatever others signalled |
| SharedWorkflowRuns.EveryWaiterIsReleasedOnce | app/agent/workflows/shared-workflow/index.ts:101-112 | at the end a waiter that waited once and did not cancel was sent the one common result exactly once, also if it arrived during the drain, and one that cancelled at most once, whatever others signalled |
| SharedWorkflowRuns.NoResultAfterCancel | app/agent/workflows/shared-workflow/index.ts:102-106 | whatever was signalled, the result is never sent to an id whose last signal is CANCEL; with the written guard, unless the id is the word cancel |
| SharedWorkflowRuns.EverybodyIsReleased | app/agent/workflows/shared-workflow/index.ts:66-112 | from every point of a run the child can end with any result, or be cancelled if the trigger fired, and then exactly those who wait in the queue are sent that outcome, in order, and the workflow ends |
| PrebuildReservations.StepKeeps | app/agent/prebuild.service.ts:363-393 | every step of creating and archiving keeps: unexpired reservations of the right kind, no two overlapping checks of different sides, while the images are listed one deleter at most and no creator beside it, the images being read present, and both present while nobody deletes and no deletion failed |
| PrebuildReservations.PollKeeps | app/agent/activities/archive-prebuild-event/wait-for-prebuild-event-reservations.ts:17-38 | the poll that finds only the archive reservation lets nobody delete beside a workspace that holds a reservation |
| PrebuildReservations.MarkArchivedKeeps | app/agent/activities/archive-prebuild-event/mark-prebuild-event-as-archived.ts:13-42 | dropping image rows and the archive reservation in one transaction leaves no listed image missing |
| PrebuildReservations.InsertKeeps | app/agent/activities/archive-prebuild-event/reserve-prebuild-event.ts:17-35 | inserting a checked reservation, and the status that goes with it, keeps the invariant |
| PrebuildReservations.ClonesSeeBothImages | app/agent/workflows/workspace/index.ts:49-67 | a workspace that found the image rows finds both images at every later moment of cloning, unless a deletion failed half way; in any case the images it reads are there, and none is removed while any workspace holds the event |
| PrebuildReservations.CloneIsUndisturbed | app/agent/activities/workspace/create-workspace.ts:36-62 | from reading the base config to writing the container no image is removed, so the base is there throughout |
| PrebuildReservations.OverlapCollides | app/agent/prebuild.service.ts:370-391 | from every state of a run in which checks of both sides overlap, both images are there and no reservation is valid, the run can go on without time passing to where an image is removed while it is cloned |
| PrebuildReservations.UnlockedReservationsCollide | app/agent/prebuild.service.ts:370-391 | a run in which two reserve calls interleave and an image is removed while it is cloned, with no time passing |
| ReservationsEnd.UnreserveFrees | app/agent/workflows/workspace/index.ts:61-66 | when a workspace unreserves nothing that it owned is left, and the reservations of all others are as they were |
| ReservationsEnd.PollSucceeds | app/agent/activities/archive-prebuild-event/wait-for-prebuild-event-reservations.ts:17-38 | from every point of a run where all others have unreserved or never reserved, the next poll of a waiting archival succeeds, without any time passing |
| ReservationsEnd.ArchivalCompletes | app/agent/workflows/index.ts:169-181 | and the archival can be completed: no image is left or listed, and no archive reservation |
| ReservationsEnd.WorkspaceIsCreated | app/agent/workflows/workspace/index.ts:49-67 | from every point of a run where both images are there and no archival is reserved, a workspace can clone both and be created, and its reservation is gone at the end |
| ReservationsEnd.WorkspaceIsRefused | app/agent/prebuild.service.ts:370-382 | while an archival is reserved a workspace is refused and leaves nothing behind |
| ReservationsEnd.ReservationExpires | app/agent/workflows/workspace/index.ts:50-60 | a reservation counts until fifteen minutes after its workspace, or a day after its archival, began to reserve, and no longer |
| ReservedRegistry.StepKeeps | app/agent/workspace-agent.service.ts:57-71 | every step of the reservations, of the registry and of both together keeps: each clone computes a container from an image its workspace reads, whoever waits with such an image as base is a clone, and the event knows which images there are |
| ReservedRegistry.RemovalsAreDisciplined | app/agent/activities/archive-prebuild-event/delete-local-prebuild-event-files.ts:37-41 | in every run the archival removes an image only while nobody waits with it as base |
| ReservedRegistry.NothingDangles | app/agent/activities/workspace/create-workspace.ts:36-62 | so no config dangles and no file is missing, at any moment of cloning from a prebuild while it is archived |
| ArchivablePrebuilds.FirstRowIsNewest | app/agent/prebuild.service.ts:410-417 | row number 1 on a branch is the newest successful prebuild by object date, prebuild date and id |
| ArchivablePrebuilds.ArchivableMeansSuperseded | app/agent/prebuild.service.ts:399-445 | a prebuild is returned if and only if it is successful, linked, past its date, and on each of its branches a newer successful prebuild exists |
| ArchivablePrebuilds.NewestIsKept | app/agent/prebuild.service.ts:399-445 | archiving any subset of the returned prebuilds leaves the newest successful prebuild of every branch and project what it was |
| ArchivablePrebuilds.NothingIsLeft | app/agent/prebuild.service.ts:399-445 | archiving all of them and asking again at the same time returns nothing |
| ArchiveMonitor.StepKeeps | app/agent/workflows/index.ts:268-281 | whatever monitors have listed stays superseded on the branch until it is archived, while objects, links and prebuilds are added |
| ArchiveMonitor.BranchStaysUpToDate | app/agent/workflows/index.ts:243-297 | over any run of monitors, synchronisations and prebuilds, a branch that has a newest prebuild keeps it or gets a newer one |
| ArchiveMonitor.MonitorKeepsNewest | app/agent/workflows/index.ts:243-297 | as long as only monitors of any projects are at work, with any recently archived prebuilds skipped, the newest prebuild of every branch is the same one |
| ArchiveMonitor.LinkTakesNewest | app/agent/workflows/index.ts:256-267 | archiving a listed prebuild after a link took its object to the branch changes the newest prebuild of the branch if and only if the prebuild would be its newest, and then the branch falls back |
| ArchiveMonitor.ListedIsArchived | app/agent/workflows/index.ts:268-281 | a prebuild that may be archived can be listed, reserved and archived, which changes its status and nothing else |
| ArchiveMonitor.UnlockedLinkIsLost | app/agent/workflows/index.ts:256-267 | a run without the lock in which a new branch loses the only prebuild it has |
| VmTasks.TaskFlags.Fail | app/agent/agent-util.service.ts:275-285 | only the first failure decides who is cancelled: exactly the tasks that are not finished |
| VmTasks.StepKeeps | app/agent/agent-util.service.ts:262-300 | every step of every task keeps the invariant of flags, phases and stored statuses |
| VmTasks.ReturnedIsStored | app/agent/agent-util.service.ts:301-316 | the returned status of a task is the stored one wherever its last write went through |
| VmTasks.OneErrorUnlessAllSucceed | app/agent/agent-util.service.ts:287-316 | at most one task ends in error, and one does if and only if some task did not succeed |
| VmTasks.CancelledWereUnfinished | app/agent/agent-util.service.ts:279-282 | a cancelled task was unfinished when the first failure, of another task, was handled |
| VmTasks.SuccessIffCommitted | app/agent/workflows/prebuild.ts:87-92 | the prebuild is recorded as a success if and only if its images were committed |
| InitConfig.Database.CreateUsers | app/init/init.service.server.ts:143-197 | the loop creates missing users, overwrites every git identity and adds missing keys |
| InitConfig.Database.CreateKeyPairs | app/init/init.service.server.ts:204-226 | one key pair per public key is found or created and noted, and on an error those created before it stay |
| InitConfig.Database.AddProjectAndRepository | app/git/git.service.ts:64-88 | the repository of a url and key pair is reused or created, or nothing is written |
| InitConfig.Database.CreateProject | app/init/init.service.server.ts:227-319 | a known project is skipped; a new one gets its repository, limits and environments, or the error of the first thing missing |
| InitConfig.Database.Load | app/init/init.service.server.ts:322-329 | loading gives the specified tables or an error, and in either case deletes no user, key, repository or project |
| InitKeys.KeysAreNoted | app/init/init.service.server.ts:204-226 | whatever key pairs there are, every listed public key is noted with the first row that has it, or, if there is none when it is first reached, with a new row made of that repository's private key |
| InitKeys.NewProjectsGetTheirKey | app/init/init.service.server.ts:227-260 | every project that a load creates, in any database, is one of the configuration, and its repository has the key pair listed for it |
| InitKeys.StoredPrivateKey | app/ssh-key/ssh-key.service.ts:13-15 | a private key is stored without the white space around it and with a line break behind it |
| InitReload.UsersTwice | app/init/init.service.server.ts:143-197 | loading the same users again changes nothing, also when a user is listed several times |
| InitReload.SecondLoadChangesNothing | app/init/init.service.server.ts:199-329 | loading again changes nothing if and only if every listed public key has a row after the first load |
| InitReload.UnderivedKeysPileUp | app/init/init.service.server.ts:207-225 | a load with a public key that has no row adds a key pair |
| InitReload.CommentedKeyIsStoredTwice | app/ssh-key/ssh-key.service.ts:17-33 | a public key listed with another comment than the derived one is stored once more by the second load |
| InitRoundTrip.LoadThenDump | app/init/init.service.server.ts:32-123 | a canonical configuration loads into an empty database without an error, and dumping gives it back, in whatever order rows are returned |
| InitRoundTrip.CanonicalLoadsTwice | app/init/init.service.server.ts:322-329 | a canonical configuration loads without an error, and loading it again changes nothing |
| InitRoundTrip.SortIsUnique | app/init/init.service.server.ts:39-68 | rows in any order sort into the one strictly sorted list of the same rows |
| GitRemotes.FindRemoteUpdates | app/agent/git/git.service.ts:140-160 | the loops list the new and updated remotes and then the deleted ones |
| GitRemotes.UpdatesGiveTheNewMap | app/agent/git/git.service.ts:140-160 | applying the updates to the old map gives the new one, and every update is labelled as new, updated or deleted rightly |
| GitRemotes.OneUpdatePerDifference | app/agent/git/git.service.ts:140-160 | there is exactly one update for every name on which the lists differ, and none for the others |
| GitBranches.GitDatabase.UpdateBranches | app/agent/git/git.service.ts:183-279 | listed remotes get their hash, all other branches are as they were, objects and links are only added, and the time stamp is set exactly when a branch moved |
| GitBranches.GitDatabase.AddLinks | app/agent/git/git.service.ts:237-268 | links are added where missing and never repeated |
| GitBranches.SynchronisingKeepsSound | app/agent/git/git.service.ts:183-279 | every branch always has a link to its current object |
| GitBranches.SecondRunChangesNothing | app/agent/git/git.service.ts:183-279 | a second run with the same remotes changes nothing |
| GitBranches.LinksRememberHistory | app/agent/git/git.service.ts:237-268 | over any synchronisations the links keep every object that a branch ever pointed to |
| IpAllocator.IpStorage.AllocateIpBlock | app/agent/network/workspace-network.service.ts:94-113 | the least free id is allocated, and allocation fails exactly when there is none or the storage is invalid; a failure changes nothing |
| IpAllocator.IpStorage.FreeIpBlock | app/agent/network/workspace-network.service.ts:126-132 | exactly the freed id leaves the storage |
| IpAllocator.LiveOwnersAreDisjoint | app/agent/network/workspace-network.service.ts:94-132 | over every sequence of allocations and frees no two live owners share a block, and an allocation fails exactly when all 16382 blocks have live owners |
| IpAddresses.NothingIsTruncated | app/agent/network/workspace-network.service.ts:77-86 | the two masked and shifted octets hold the whole number |
| IpAddresses.HostsOfOneBlock | app/agent/network/workspace-network.service.ts:77-92 | tap and VM address are the two host addresses of one /30 block that gives the id back |
| IpAddresses.BlocksAreDisjoint | app/agent/network/workspace-network.service.ts:77-92 | different ids have different /30 blocks and no address in common |
| FileLocks.OneBodyPerPath | app/agent/utils.ts:267-308 | at most one caller per path is inside its body, however often entries are deleted and made again |
| FileLocks.EntriesCountCallers | app/agent/utils.ts:267-308 | a path has an entry exactly when callers are in flight, the counter is their number, and a leaving caller finds the entry |
| FileLocks.WaitsForItsPathOnly | app/agent/utils.ts:267-308 | a caller waits only for a caller of the same path that is past taking the mutex |
| FileLocks.CallerGetsThrough | app/agent/utils.ts:267-308 | a caller that waits while the mutex is free can take it, lock the file, run its body and leave, and then, as after a failed lock, the next caller of the path can take it |
| FileLocks.Compose | app/agent/utils.ts:317-338 | paths that repeat are refused before anything is acquired, and otherwise the locks are nested in order |
| FileLocks.LastInFirstOut | app/agent/utils.ts:327-337 | locks are taken from the last path to the first and given back last in, first out |
| FileLocks.NeverWaitsForItself | app/agent/utils.ts:317-338 | with distinct paths the composed function acquires no lock it holds and gives all back |
| FileLocks.RepeatedPathsDeadlock | app/agent/utils.ts:317-322 | with a repeated path it would wait for a lock it holds |
| MarkedText.StartsInSegment | extensions/vscode_ui/src/extension.ts:553-556 | inside a block the start marker of a name matches at the block's start if the names are equal, and at its end marker if the name is a slash and the block's name, and nowhere else |
| MarkedText.EndFound | extensions/vscode_ui/src/extension.ts:557-564 | from behind the start marker of a block, its own end marker is found first |
| MarkedText.Replaced | extensions/vscode_ui/src/extension.ts:556-594 | replacing a block keeps every other block byte for byte and in order |
| MarkedText.Mangled | extensions/vscode_ui/src/extension.ts:553-574 | when the search ends at another block's end marker the result is never the intended file |
| SshConfig.HocusSshConfig.Connect | extensions/vscode_ui/src/extension.ts:538-594 | refuses parameters outside the pattern, reports the missing end marker, and otherwise cuts and appends as specified; errors change nothing |
| SshConfig.ConnectionRenews | extensions/vscode_ui/src/extension.ts:553-594 | a connection renews its block and keeps the others if and only if no block whose name follows a slash in the new name comes before it |
| SshConfig.FileHoldsLatest | extensions/vscode_ui/src/extension.ts:538-594 | after any connections with names without a leading slash the file is the banner and one block per name with its latest values, in order of last connection |
| SshConfig.ConnectionsAreKept | extensions/vscode_ui/src/extension.ts:406-594 | the same for the banner and the block text of the extension |
| SshHosts.SettingsAreThoseOfTheLastConnection | extensions/vscode_ui/src/extension.ts:579-594 | after any connections with names without a leading slash, ssh reads for each workspace the host name and the jump host of its last connection |
| SshConfig.LeadingSlashIsMisled | extensions/vscode_ui/src/extension.ts:553-574 | with a workspace `a` in the file, connecting to `/a` does not leave the file it should |

## Left out

- FindLun: the loop that creates the LUN directory again when it vanishes is part of one attempt; who owns a LUN at each attempt is a parameter.
- Connect: the file is set up with the banner when it is missing, which is where the class starts; the rest of the handler opens the editor.
- CommitContainer: making the layer file with overlaybd is the input `layer` and `blob`; uploading and sealing are not modelled.
- ExportImage: the reference of a remote image is not taken apart, and a layer that is not on disk is a parameter `remote`.
- UpdateBranches: fetching remotes and the filter on branch names come before it; requires each name once.
- AllocateIpBlock: the storage is a list of ids; the agent id beside it, YAML and the file itself are not modelled, and the lock around it is that of `FileLocks`.
- Load: the workflows that a new project starts, and the yaml text, are not modelled; trimming knows ASCII white space only. The user environments of a failed load are left in an unspecified part, because object order decides it.
- LoadThenDump: dumping is stated for tables whose repositories and key pairs exist, which holds after the load.
- TcmuIdToLun: a character is one code unit here; the source counts a character outside the basic multilingual plane as two.
- Serving: the wake signal, which only tests send, is not modelled; what arrives at each await, and the answers to status queries, are inputs.
- EveryWaiterIsReleasedOnce: a send that fails for good counts as sent, as the code only warns.
- The stages of `expose` besides the LUN search, `hide`, mounting, QEMU, crane and overlaybd calls: foreign processes.
- Retries of failed activities, except where a step may simply happen again; timeouts, sleeps and poll intervals.
- Deadlock of two callers of `withManyFileLocks` that list the same paths in different orders: the code does not prevent it.
- Freeing address blocks when a virtual machine is cleaned up: it depends on whether a foreign process answers.
- React components, routes, telemetry, logging, tests and generated schemas: no shared state to reason about.
- Removing archived prebuilds from the database after 48 hours: a single query with no interplay.
