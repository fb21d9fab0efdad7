# Verification model of the agent-forge operator

The operator reconciles Kubernetes objects with OpenStack and vSphere one durable step at a time.
Any call may fail, any reply may be lost, and the process may stop between any two calls. This
project models its protocols in Dafny and proves what holds over every run of them. Nothing here
executes the operator.

| part | files | what it is about |
|---|---|---|
| OpenStack worker and image cache | `OpenStackTypes`, `OpenStackWorker`, `OpenStackCache`, `OpenStackLinks`, `OpenStackRuns`, `OpenStackCleanup`, `OpenStackStarvation`, `OpenStackWork`, `OpenStackReconciler` | the write-ahead create journal, the reference-counted Glance image cache with its tombstone and refresh journal, ordered cleanup, when it terminates and when it does not |
| vSphere ISO ejection | `IsoEjection`, `IsoEjectionCode` | the durable ejection record, its two checkpoints and the aliasing between the record and the agent status |
| Deletion against CAPI | `VmDeletion`, `VmDeletionCode` | unapproval under optimistic locks against an external binder |
| VM inventory | `AgentMatching`, `AgentAssignment`, `VmLifecycle`, `PoolPlanner`, `VmRefresh`, `VmCycles` | identity index, four-pass assignment, merge and refresh, deletion planning |
| vSphere ISO cache | `IsoRetention`, `IsoCache` | conditional download, verification, history and pruning |
| Demand claims | `DemandClaim`, `DemandClaimCode` | one pool per AgentMachine |
| Shared values | `Common` | options and digests |

Each protocol part is built in the same way. A state machine has one action per API call or
in-memory step, guarded only by what the acting process itself has read, written or remembers;
what holds in all reachable states and over all runs is proved of it. A code layer follows the Go
functions call by call, lets everybody else act before every call, and is proved to take only
actions of the state machine: every method ends in a state that a run leads to from where it
started, so the run theorems hold for the code. A crash is an action that is
always possible. What calls answer is an argument of the methods or an arbitrary choice, and a
reconcile reports an error only after an answer that was noted as adverse. `dafny verify dfyconfig.toml` checks everything.

## What is assumed about the environment

- A POST lands atomically; its reply may be lost. A rejection means that nothing was created.
- A lookup by name may hide a fresh resource, but keeps listing it once it was listed. A read by ID is exact.
- Resources may vanish at any time; a Glance image vanishes only after the operator requested it. Uploaded images become active at some point or never.
- UIDs and resourceVersions are never reused. Object names are unique in a namespace.
- One reconcile runs at a time per OpenStackAgent. This is essential: the status write succeeds without writing when the stored status already equals the wanted one (internal/controller/openstackagent_controller.go:60-62), so two simultaneous reconciles would both pass the journal write.
- SHA-256 and name-based UUIDs (section 5.5 of RFC 9562) are injective.
- Only the operator edits image caches, demand claims and cleanup annotations; the CAPI binder reserves only approved Agents and does so under the resourceVersion.

## Where the code does not do what its design says

- Ejection: the closure passed by finishISOEjection stores agent.Status, which the first successful checkpoint replaces by a copy, while EjectISO goes on with the old record. A question ID noted after the disconnect checkpoint of the same call is therefore not durable when it is answered. `IsoEjection.RecordedFirstIffStartsQuietly` gives the exact condition, `IsoEjection.SecondQuestionAnswered` a run in which two questions are answered, `IsoEjection.AtMostTwoQuestions` the bound that still holds, and `IsoEjection.OneQuestionPerEjection` what holds for a checkpoint that stores the record itself.
- Inventory: a VM that waits for its Machine to go takes over the Machine name of a bound Agent that moved meanwhile, and becomes deletable when that other Machine is not listed. `VmCycles.SeenDeletingIffConcerned` gives the exact condition and `VmCycles.SelectedForMachineNeverSeenDeleting` a run of the inventory.
- Cleanup: a worker that recorded a cache name but was stopped before it pinned an image can be held up by others that use the name again. `OpenStackStarvation.FinishesIffNameSettled` gives the condition and `OpenStackStarvation.CleanupCanBeHeldUp` the runs.
- Journal: an entry is resolved by finding its resource alone, so one without a resource blocks the worker. A plain crash between the stored intent and the POST leads there (`OpenStackStarvation.UnpostedEntryIsReachable`), and so do a failed write of the intent followed by the status write of the error path, and a resource that vanished before its ID was recorded. `OpenStackRuns.EntryWithoutResourceBlocksForever` shows that such a worker is neither provisioned nor, where its policy deletes the kind, ever cleaned up, and `OpenStackStarvation.EntryResolvableIff` gives the exact condition.

## Model

| member | source | states |
|---|---|---|
| `OpenStackWorker.LocalStepKeeps` | internal/controller/openstackagent_controller.go:167-309 | every API call, in-memory assignment, crash and move of the cloud keeps the journal invariant of one worker: each resource is recorded, journaled or (after creates ended) visible; at most one of each kind; deletes only in order and without demand |
| `OpenStackWorker.PostKeeps` | internal/controller/openstackagent_controller.go:187-201 | a POST that lands, with or without a reply, leaves exactly one accounted resource of its kind |
| `OpenStackWorker.RequestDeleteKeeps` | internal/controller/openstackagent_controller.go:466-490 | a delete keeps the order server, discovery volume, OS volume, port and needs absent demand |
| `OpenStackWorker.ForgetPendingKeeps` | internal/controller/openstackagent_controller.go:486-488 | clearing a journal entry in cleanup never loses the resource: it is visible to later lookups |
| `OpenStackWorker.ClearImageIdentityKeeps` | internal/controller/openstack_iso_cache.go:208-217 | the refresh journal and the image identity leave memory together |
| `OpenStackLinks.StepKeepsInvariant` | internal/controller/openstack_iso_cache.go:67-280 | every action of any number of workers and of Glance keeps the global invariant that ties references, tombstones, images, held copies and statuses together |
| `OpenStackLinks.DropReferenceKeeps` | internal/controller/openstack_iso_cache.go:254-266 | dropping a reference under the resourceVersion, with the tombstone on the last one, keeps the global invariant |
| `OpenStackLinks.DeleteCacheKeeps` | internal/controller/openstack_iso_cache.go:275-279 | deleting the ConfigMap under UID and resourceVersion keeps the global invariant |
| `OpenStackLinks.AddReferenceKeeps` | internal/controller/openstack_iso_cache.go:86-98 | joining an active cache under the resourceVersion keeps the global invariant |
| `OpenStackRuns.ReachableInvariant` | internal/controller/openstack_iso_cache.go:65-99 | the global invariant holds in every state of every run, with any interleaving and any crashes |
| `OpenStackRuns.AtMostOneCreatePerKind` | internal/controller/openstackagent_controller.go:164-202 | over a whole run at most one port, OS volume, discovery volume and server is created for a worker |
| `OpenStackRuns.PostNeverRepeats` | internal/controller/openstackagent_controller.go:184-189 | a POST is sent only under its durable journal entry and when nothing of the kind exists or existed |
| `OpenStackRuns.DurableStatusShape` | internal/controller/openstackagent_controller.go:216-302 | a stored journal entry names a kind without ID; a recorded or pending server implies port, MAC, both volumes and image; an image implies name and digest of its cache; a cache name implies port, MAC and OS volume |
| `OpenStackRuns.RecordedIdsNeverChange` | internal/controller/openstackagent_controller.go:167-202 | a recorded ID stays recorded unchanged over every run |
| `OpenStackRuns.RemovedFinalizerLeavesNothing` | internal/controller/openstackagent_controller.go:500-539 | a removed finalizer means that no resource the policy deletes exists and that the UID is in no reference set |
| `OpenStackRuns.DeletesWaitForDemandAndOrder` | internal/controller/openstackagent_controller.go:491-518 | a requested delete means that demand is gone and every resource before it in the order is gone, for good (the image reference: OpenStackRuns.ImageReferenceGoesLast) |
| `OpenStackRuns.ImageReferenceGoesLast` | internal/controller/openstackagent_controller.go:515-522 | in cleanup neither reference nor image nor cache is touched before demand is gone and every resource that the policy deletes is gone |
| `OpenStackRuns.EntryWithoutResourceBlocksForever` | internal/controller/openstackagent_controller.go:215-220 | a stored journal entry without an existing resource of its kind stays for ever: nothing of the kind exists again, and a finalizer that waits for the kind is never removed |
| `OpenStackRuns.NoDeleteWhileDemandExists` | internal/controller/openstackagent_controller.go:77-85 | while the AgentMachine exists nothing is being deleted and no delete can be sent |
| `OpenStackRuns.ImageDeletedOnlyAfterTombstone` | internal/controller/openstack_iso_cache.go:254-274 | an image delete is possible only for a tombstoned cache without references |
| `OpenStackRuns.TombstoneIsForever` | internal/controller/openstack_iso_cache.go:65-99 | no UID ever enters a tombstoned cache again |
| `OpenStackRuns.PinnedImageSurvives` | internal/controller/openstack_iso_cache.go:220-280 | an image keeps existing, undeleted, as long as any worker refers to its cache, even if a later cache reuses the key |
| `OpenStackRuns.LiveVolumeKeepsItsImage` | internal/controller/openstack_iso_cache.go:128-170 | a discovery volume or server that exists keeps its image and the reference on it |
| `OpenStackRuns.UploadMatchesCacheKey` | internal/controller/openstack_iso_cache.go:169-194 | whatever is uploaded has the digest that its cache is keyed by, also after a restart with another download |
| `OpenStackRuns.ImageContentMatchesCacheKey` | internal/controller/openstack_iso_cache.go:28-36 | the content of an image is the one its cache key names; an active image has content |
| `OpenStackRuns.ImageIdentityNeverChanges` | internal/controller/openstack_iso_cache.go:140-142 | the error ImageCacheIdentityChanged is unreachable when only the operator edits caches |
| `OpenStackRuns.RefreshJournalMeansNothingBuilt` | internal/controller/openstack_iso_cache.go:196-203 | a durable refresh journal, also during deletion, implies that no server or discovery volume was ever created, nothing is pending and no Agent is known, and that no POST can follow |
| `OpenStackRuns.RefreshJournalSurvives` | internal/controller/openstack_iso_cache.go:200-218 | outside deletion the refresh journal survives every run unchanged until one write clears it with the image identity, port and OS volume untouched |
| `OpenStackRuns.HistoryIsRun` | internal/controller/openstackagent_controller.go:65-139 | a recorded history of legal steps is a run, so the run theorems apply to the code |
| `OpenStackRuns.OthersLeaveWorkerAlone` | internal/controller/openstackagent_controller.go:54-64 | nobody else changes a worker's status or process memory; its cloud resources only move forward |
| `OpenStackCleanup.ReachableCleanupInv` | internal/controller/openstack_iso_cache.go:140-142 | in every reachable state a pinned image belongs to the pinned cache name |
| `OpenStackCleanup.DeletionRuns` | internal/controller/openstackagent_controller.go:501-522 | from any stage of the deletion order one reconcile is possible and makes progress |
| `OpenStackCleanup.ReleaseRuns` | internal/controller/openstack_iso_cache.go:220-280 | releasing makes progress from every reachable state of the cache: missing, foreign, active, tombstoned with or without image |
| `OpenStackCleanup.CleanupPassProgresses` | internal/controller/openstackagent_controller.go:491-539 | every cleanup reconcile without failing calls and without interference is possible and removes the finalizer or lowers the measure; Reconciler.Cleanup and Reconciler.ReconcileRepeatedly state the same for the code with interference at every call |
| `OpenStackCleanup.MeasureRisesIffNameReused` | internal/controller/openstack_iso_cache.go:65-99 | of all actions of another worker or of the cloud exactly one raises the measure: a new cache under the recorded name of a worker without pinned image |
| `OpenStackCleanup.CleanupFinishes` | internal/controller/openstackagent_controller.go:491-539 | seven cleanup reconciles remove the finalizer: whatever the others do in between if the worker pinned its image or recorded no name, otherwise unless they create a new cache under its name |
| `OpenStackStarvation.FinishesIffNameSettled` | internal/controller/openstack_iso_cache.go:220-280 | unless its recorded name is in use at the start, seven reconciles are certain to be enough for a worker, with or without live resources, if and only if it pinned its image or recorded no name |
| `OpenStackStarvation.HoldUp` | internal/controller/openstack_iso_cache.go:220-280 | a worker without pinned image can be held up for any number of rounds: the first ones delete its resources, from then on others that built port and OS volume of their own create, give up and collect caches under its name |
| `OpenStackStarvation.CleanupCanBeHeldUp` | internal/controller/openstack_iso_cache.go:220-280 | such a worker is reachable, with live port and OS volume, so no number of rounds is a bound for all workers |
| `OpenStackStarvation.UnpostedEntryIsReachable` | internal/controller/openstackagent_controller.go:184-187 | a crash between the stored intent and the POST leaves a reachable worker with a stored entry and no resource |
| `OpenStackStarvation.EntryResolvableIff` | internal/controller/openstackagent_controller.go:474-488 | a stored entry can be cleared by some run if and only if a resource of its kind exists and the worker is not being deleted under the Retain policy |
| `OpenStackWork.OthersAddNoWork` | internal/controller/openstack_iso_cache.go:220-280 | nothing that anybody else does, even in the middle of a reconcile, adds to what cleanup still has to ask for |
| `OpenStackCleanup.OrderIsProtocolOrder` | internal/controller/openstackagent_controller.go:501-518 | the order in which cleanup deletes is the order the invariant asks for, with and without a retained OS volume |
| `OpenStackReconciler.Reconciler.constructor` | internal/controller/openstackagent_controller.go:65-69 | any worker of a reachable cluster that no reconcile works on can be reconciled |
| `OpenStackReconciler.Reconciler.Interfere` | internal/controller/openstackagent_controller.go:65-139 | between two calls anybody else may act; the history goes on, status and process memory stay, resources and images move forward, and no cleanup work is added |
| `OpenStackReconciler.Reconciler.WriteStatus` | internal/controller/openstackagent_controller.go:54-64 | a write that works leaves the stored status equal to the one in memory; only a new journal entry arms a POST; one that fails may land |
| `OpenStackReconciler.Reconciler.PostCreate` | internal/controller/openstackagent_controller.go:187-201 | a resource appears exactly if the POST is delivered; a reply records it, a rejection creates nothing and clears the journal, an unknown outcome keeps the entry |
| `OpenStackReconciler.Reconciler.EnsureResource` | internal/controller/openstackagent_controller.go:164-202 | at most one POST, only if nothing was recorded or journaled and after the entry is stored; success records the ID and clears the entry |
| `OpenStackReconciler.Reconciler.JournalAndPost` | internal/controller/openstackagent_controller.go:184-201 | intent is durable before the POST |
| `OpenStackReconciler.Reconciler.RecoverPending` | internal/controller/openstackagent_controller.go:215-240 | an open journal entry is resolved by lookup alone; success records exactly its kind; a miss changes nothing and creates nothing |
| `OpenStackReconciler.Reconciler.ObserveServer` | internal/controller/openstackagent_controller.go:241-255 | an existing server is only observed: identity and IDs stay, nothing is created; an Agent that is found for a settled server is recorded |
| `OpenStackReconciler.Reconciler.EnsureNetwork` | internal/controller/openstackagent_controller.go:256-264 | at most one port and nothing else is created; success records the port, and the MAC if it is reported |
| `OpenStackReconciler.Reconciler.EnsureOSVolume` | internal/controller/openstackagent_controller.go:265-278 | success means recorded; it is usable exactly when moreover available and bootable, with no open journal entry |
| `OpenStackReconciler.Reconciler.EnsureDiscoveryVolume` | internal/controller/openstackagent_controller.go:284-294 | success means recorded; it is usable exactly when moreover available, with no open journal entry |
| `OpenStackReconciler.Reconciler.EnsureInstance` | internal/controller/openstackagent_controller.go:284-308 | discovery volume, then both IDs stored, then the server; success records the discovery volume, and the server too unless the volume is not available yet |
| `OpenStackReconciler.Reconciler.StoreAndCreateServer` | internal/controller/openstackagent_controller.go:295-308 | the volume IDs are stored before the server is requested; success records the server |
| `OpenStackReconciler.Reconciler.BuildServer` | internal/controller/openstackagent_controller.go:265-308 | volumes, image and server in order: at most one of each is created; success records the OS volume, and the server too when nothing has to be waited for and the image stays active |
| `OpenStackReconciler.Reconciler.Provision` | internal/controller/openstackagent_controller.go:210-309 | a pending create is resolved without creating; an existing server creates nothing; a refresh journal is kept or completed; an error-free pass with nothing to wait for records a server or leaves fewer passes until one is recorded |
| `OpenStackReconciler.Reconciler.AcquireCache` | internal/controller/openstack_iso_cache.go:67-99 | success means the worker is referenced by the active ConfigMap of the recorded name; it fails only on a tombstone, when somebody else changed the ConfigMap, or when the write fails |
| `OpenStackReconciler.Reconciler.HeldCacheIsActive` | internal/controller/openstack_iso_cache.go:65-99 | a cache held by a reconcile is active, refers to the worker, has the recorded name, and owns the pinned image |
| `OpenStackReconciler.Reconciler.PrepareDiscoveryImage` | internal/controller/openstack_iso_cache.go:101-126 | name and digest are pinned and stored before any cache is touched; done means the pinned image was seen active, and success without done that it was not |
| `OpenStackReconciler.Reconciler.EnsureDiscoveryImage` | internal/controller/openstack_iso_cache.go:128-167 | only the image ID, or the refresh phase, changes in the status |
| `OpenStackReconciler.Reconciler.PinImageAndCheckpoint` | internal/controller/openstack_iso_cache.go:133-142 | the pinned image is the one of the held cache and is stored before the image is touched |
| `OpenStackReconciler.Reconciler.UploadDiscoverySnapshot` | internal/controller/openstack_iso_cache.go:172-194 | different bytes are never uploaded: the refresh journal is entered instead, and only if nothing was built; otherwise success means that the image has its content |
| `OpenStackReconciler.Reconciler.UploadSnapshot` | internal/controller/openstack_iso_cache.go:188-193 | after an upload the image holds the digest that its cache is keyed by; it fails only if the image is missing or the call fails |
| `OpenStackReconciler.Reconciler.BringImageToActive` | internal/controller/openstack_iso_cache.go:143-167 | success means that the image was created, and either seen active or, if queued, given its content or put into the refresh journal |
| `OpenStackReconciler.Reconciler.ReleaseDiscoveryImage` | internal/controller/openstack_iso_cache.go:220-280 | success means that no cache refers to the worker any more, and done that the release is complete; short of done the image is asked for; it fails only when somebody else changed the ConfigMap or a write fails |
| `OpenStackReconciler.Reconciler.CollectTombstone` | internal/controller/openstack_iso_cache.go:267-279 | with the tombstone held: image first, then the ConfigMap under UID and resourceVersion |
| `OpenStackReconciler.Reconciler.DeleteTombstonedImage` | internal/controller/openstack_iso_cache.go:267-274 | behind a tombstone the image is asked for or already gone afterwards |
| `OpenStackReconciler.Reconciler.DeleteTombstone` | internal/controller/openstack_iso_cache.go:275-279 | the ConfigMap goes under UID and resourceVersion after its image was seen absent |
| `OpenStackReconciler.Reconciler.DropReferenceUnderLock` | internal/controller/openstack_iso_cache.go:254-266 | the reference goes under the resourceVersion and no other is left; done unless it was the last; it fails only on a conflict or a failed write |
| `OpenStackReconciler.Reconciler.FinishIfImageGone` | internal/controller/openstack_iso_cache.go:229-253 | without own bookkeeping the release is done if and only if the pinned image is gone, which it is unless somebody changes the ConfigMap meanwhile |
| `OpenStackReconciler.Reconciler.PinnedImageWent` | internal/controller/openstack_iso_cache.go:229-253 | when another ConfigMap or none carries the recorded name, the pinned image is gone |
| `OpenStackReconciler.Reconciler.RefreshDiscoveryImage` | internal/controller/openstack_iso_cache.go:200-218 | the status stays as it is, or journal and identity are cleared together after no cache refers to the worker; success without clearing means that the release moved on |
| `OpenStackReconciler.Reconciler.Locate` | internal/controller/openstackagent_controller.go:466-480 | a resource that exists and is visible is found; absence is believed only without an open journal entry; it fails only for a failed call or such an entry |
| `OpenStackReconciler.Reconciler.DeleteResource` | internal/controller/openstackagent_controller.go:466-490 | done means that no resource of the kind exists any more; success without done means that its delete was requested; either way its journal entry is closed and nothing else changes in the status |
| `OpenStackReconciler.Reconciler.DeleteResources` | internal/controller/openstackagent_controller.go:501-518 | done means that every kind the policy deletes was observed absent, in order |
| `OpenStackReconciler.Reconciler.Cleanup` | internal/controller/openstackagent_controller.go:491-539 | a removed finalizer means that nothing of the worker is left in the cloud or in any cache; the Retain policy deletes nothing; for a worker with pinned image or no name, an error-free pass after effective deletes removes the finalizer or leaves less to ask for, whoever interferes |
| `OpenStackReconciler.Reconciler.ReportError` | internal/controller/openstackagent_controller.go:109-132 | only a non-retryable error sets the phase Failed, and never over the refresh journal; a status write that works stores it |
| `OpenStackReconciler.Reconciler.Reconcile` | internal/controller/openstackagent_controller.go:65-139 | a whole reconcile, from read to return, extends the recorded history by legal actions only and reports an error only after an adverse answer; without demand it deletes the object, and under deletion with the Retain policy it only gives up the finalizer; error-free and with nothing to wait for it gets closer to a server; under deletion it adds no work, and error-free after effective deletes it removes the finalizer or leaves less work |
| `OpenStackReconciler.Reconciler.ReconcileRepeatedly` | internal/controller/openstackagent_controller.go:65-139 | for a worker under deletion with pinned image or no name, if each cleanup begins after the deletes asked for before have taken effect, error-free reconciles and the work that is left never exceed the work at first, which is at most seven: the seventh error-free reconcile at the latest removes the finalizer, with anybody acting at every call and any failures in between |
| `OpenStackReconciler.Reconciler.ReconcileUntilBuilt` | internal/controller/openstackagent_controller.go:65-139 | while demand exists, the image is active and nothing has to be waited for, three error-free reconciles in a row end with a recorded server, with anybody acting at every call |
| `IsoEjection.DisconnectOnlyAfterCheckpoint` | internal/controller/vsphere_provider.go:542-550 | over any retries and crashes a disconnect is sent only after disconnectStarted is durable, with either checkpoint |
| `IsoEjection.OneQuestionPerEjection` | internal/controller/vsphere_provider.go:567-580 | one ejection answers at most one question ID, recorded first: always if the checkpoint stores *op; with the closure as written if no call that starts the disconnect answers a question |
| `IsoEjection.RecordedFirstIffStartsQuietly` | internal/controller/vsphereagent_controller.go:375-388 | with the closure as written, all answers of all calls were recorded first if and only if no call that starts the disconnect answers a question |
| `IsoEjection.StartingCallAnswersIff` | internal/controller/vsphere_provider.go:542-611 | whether the call that starts the disconnect answers a question is decided by its script: right VM and media, start stored, and the first question polled is the CD lock and is noted |
| `IsoEjection.AtMostTwoQuestions` | internal/controller/vsphereagent_controller.go:526-544 | over any retries and crashes the closure as written never lets one ejection answer more than two question IDs |
| `IsoEjection.AnswersRecordedIffStartedBefore` | internal/controller/vsphereagent_controller.go:375-388 | with the closure as written, an answer of any call was recorded first if and only if disconnectStarted was on record when the call began |
| `IsoEjection.SecondQuestionAnswered` | internal/controller/vsphereagent_controller.go:526-544 | a concrete run in which the closure as written lets one ejection answer two question IDs |
| `IsoEjection.ClearedMeansReleased` | internal/controller/vsphere_provider.go:503-565 | a record is cleared only after a call that saw the VM gone or the recorded device free of the recorded ISO |
| `IsoEjection.CallSucceedsIff` | internal/controller/vsphere_provider.go:503-611 | a call succeeds if and only if its script says so in plain terms: the VM is gone, the recorded device of the recorded VM is gone or empty, or everything from the first question over the disconnect to the last look goes well |
| `IsoEjection.CallCommands` | internal/controller/vsphere_provider.go:503-611 | a disconnect is sent if and only if the recorded device still holds the ISO and what precedes it succeeds; an eject if and only if moreover the polls go smoothly; then the commands are exactly answer, disconnect, one answer per question in order, eject |
| `IsoEjection.PollLoopSucceedsIff` | internal/controller/vsphere_provider.go:582-611 | the polls succeed if and only if each can be read and all questions are one answerable CD lock; every question is then answered once, in order |
| `IsoEjection.ReconcileClearsIff` | internal/controller/vsphereagent_controller.go:97-106 | one reconcile clears the record if and only if its call succeeds and the status write lands |
| `IsoEjection.ClearedIff` | internal/controller/vsphereagent_controller.go:97-106 | over any retries and crashes the record goes if and only if some attempt finds it, succeeds and stores the result |
| `IsoEjection.ClearedOnlyAfterEject` | internal/controller/vsphere_provider.go:542-565 | the attempt that cleared a record saw the VM gone or the device free on arrival, or sent the disconnect and then the eject |
| `IsoEjection.StartIsStored` | internal/controller/vsphereagent_controller.go:97-106 | the start of a disconnect is on record after the reconcile even if its own checkpoint failed |
| `IsoEjection.EjectISOCommands` | internal/controller/vsphere_provider.go:503-611 | a call answers only CD-lock questions that the VM posed during it, and ejects only after a disconnect |
| `IsoEjection.EjectISOKeeps` | internal/controller/vsphere_provider.go:503-565 | the target never changes and the copies of the record stay consistent |
| `IsoEjection.FoundDeviceIsTheOne` | internal/controller/vsphere_provider.go:520-533 | with unique device keys the first device found backs the ISO if and only if some device does |
| `IsoEjectionCode.FindTarget` | internal/controller/vsphere_provider.go:520-527 | the search loop finds the first device with the recorded key |
| `IsoEjectionCode.StillBacked` | internal/controller/vsphere_provider.go:559-563 | the final loop reports whether any device still backs the recorded ISO |
| `IsoEjectionCode.Prepare` | internal/controller/vsphere_provider.go:467-499 | an ejection is authorized exactly for the VM itself, without a pending question, for the first device that backs a cached ISO, and starts with nothing done |
| `IsoEjectionCode.Controller.UpdateStatus` | internal/controller/vsphereagent_controller.go:526-544 | stores agent.Status and on success replaces it by a fresh copy |
| `IsoEjectionCode.Controller.RunCheckpoint` | internal/controller/vsphereagent_controller.go:380 | both checkpoints do what the specification says, aliasing included |
| `IsoEjectionCode.Controller.AnswerISOLock` | internal/controller/vsphere_provider.go:567-580 | refines the specification of answering on heap objects |
| `IsoEjectionCode.Controller.DisconnectInstallationMedia` | internal/controller/vsphere_provider.go:582-611 | the polling loop refines its specification |
| `IsoEjectionCode.Controller.EjectMedia` | internal/controller/vsphere_provider.go:503-565 | EjectISO on heap objects refines its specification |
| `IsoEjectionCode.Controller.ResumeEjection` | internal/controller/vsphereagent_controller.go:97-106 | one reconcile resumes the recorded ejection and stores agent.Status, as specified |
| `IsoEjectionCode.Controller.ResumeAll` | internal/controller/vsphereagent_controller.go:97-106 | any number of reconciles refine the run of attempts and keep the disconnect property |
| `VmDeletion.StepKeeps` | internal/controller/vm_cleanup.go:56-93 | every step of deleters, approvers, binders and the environment keeps the locking invariant |
| `VmDeletion.NoVMDestroyedWhileBound` | internal/controller/vm_cleanup.go:56-93 | when a VM is destroyed, every Agent listed for it is gone or unapproved, annotated and unbound |
| `VmDeletion.HostsOfIff` | internal/controller/vm_cleanup.go:36-52 | listed for a VM are exactly the Agents with its BIOS UUID or MAC and, where neither can be compared, the one it records and those that carry its name |
| `VmDeletion.NoHardwareDestroyedWhileBound` | internal/controller/vm_cleanup.go:56-93 | when a VM is destroyed, every Agent that had its BIOS UUID or MAC when the deleter listed Agents is gone or sealed, whatever happened in between |
| `VmDeletion.AbsentForever` | internal/controller/vm_cleanup.go:97-113 | an Agent object that is gone never comes back |
| `VmDeletion.SealedForever` | internal/controller/vsphereagentpool_controller.go:1193-1243 | a sealed Agent is never approved or bound again by any pool, provider or binder |
| `VmDeletion.DestroyedVMStaysUnbound` | internal/controller/vsphereagent_controller.go:437-468 | from the destruction on, in every run, the Agents listed for the VM never become bound |
| `VmDeletion.OnlyUnboundHostsDeleted` | internal/controller/vm_cleanup.go:97-113 | an Agent object is deleted only while it is unbound |
| `VmDeletion.ReservationOrDeletion` | internal/controller/vm_cleanup.go:54-55 | of a reservation and an unapproval in flight exactly the first one wins |
| `VmDeletionCode.DeletionReconciler.PrepareVMDeletion` | internal/controller/vm_cleanup.go:56-93 | success means that the Machine was absent and every Agent listed in a state of this very run, among them every one on the hardware of the VM, was unbound and is sealed; every other outcome has its reason in those states or in a failed call |
| `VmDeletionCode.DeletionReconciler.Seal` | internal/controller/vm_cleanup.go:74-91 | one Agent is unapproved and annotated under its resourceVersion, or the deletion is abandoned for a conflict or a failed patch |
| `VmDeletionCode.DeletionReconciler.SealAll` | internal/controller/vm_cleanup.go:73-92 | success means that no listed Agent was bound and all of them are sealed; it stops at the first bound or changed Agent or failed patch, and names it |
| `VmDeletionCode.DeletionReconciler.CheckAndList` | internal/controller/vm_cleanup.go:57-72 | after the Machine was seen absent exactly the Agents associated with the VM are listed, every Agent on its hardware among them, and nothing is written |
| `VmDeletionCode.DeletionReconciler.DeleteVMAgent` | internal/controller/vm_cleanup.go:102-111 | an Agent is deleted under UID and resourceVersion unless it is bound or changed; an absent one is fine |
| `VmDeletionCode.DeletionReconciler.DeleteVMAgents` | internal/controller/vm_cleanup.go:95-113 | success means that every Agent listed after the destruction is gone for good; anything else names the bound or changed Agent or the failed call |
| `VmDeletionCode.DeletionReconciler.ReconcileDelete` | internal/controller/vsphereagent_controller.go:437-468 | the VM is destroyed if the preparation succeeds and the provider confirms it, and only in a state in which all Agents listed earlier in the run are sealed, among them every one on its hardware; they stay sealed to the end, and success means that the Agents listed afterwards are gone |
| `AgentMatching.BuildIndex` | internal/controller/vsphereagentpool_controller.go:934-957 | the loop builds the index, name by name and key by key |
| `AgentMatching.IndexMeaning` | internal/controller/vsphereagentpool_controller.go:959-969 | a key resolves if and only if all its bearers share one name, is ambiguous if and only if two differ, and resolves to the last bearer |
| `AgentMatching.MatchNeverConflicts` | internal/controller/vsphereagentpool_controller.go:971-1012 | a match is a listed Agent whose hardware identity does not contradict the VM |
| `AgentMatching.MatchOrder` | internal/controller/vsphereagentpool_controller.go:971-1012 | with unique names the match is the sole bearer of the BIOS UUID, else of the MAC, else of the hostname, else the recorded Agent, the last two unless hardware contradicts |
| `AgentMatching.MatchIsAssociated` | internal/controller/vm_cleanup.go:47 | whatever matches is also listed when the VM is deleted |
| `AgentMatching.AssociatedIff` | internal/controller/vm_cleanup.go:47 | association in plain terms: a shared BIOS UUID or MAC, or nothing comparable and the recorded name or the hostname |
| `AgentMatching.ConflictsIff` | internal/controller/vsphereagentpool_controller.go:1043-1058 | a contradiction in plain terms: some key is known on both sides and none agrees |
| `AgentMatching.MatchIgnoresListOrder` | internal/controller/vsphereagentpool_controller.go:924-990 | with unique names the match does not depend on the list order |
| `AgentAssignment.AssignHostnames` | internal/controller/vsphereagentpool_controller.go:771-855 | the four passes give an injective assignment that is settled on every level of evidence |
| `AgentAssignment.RunPass` | internal/controller/vsphereagentpool_controller.go:774-789 | one pass extends the assignment and leaves every Agent served or without a free candidate |
| `AgentAssignment.FirstFree` | internal/controller/vsphereagentpool_controller.go:775-788 | the inner loop finds the first free candidate or shows that all are reserved |
| `AgentAssignment.EvidenceMeans` | internal/controller/vsphereagentpool_controller.go:774-855 | what each pass accepts in plain terms, over names, BIOS UUIDs and MACs |
| `AgentAssignment.AssignedNeverConflicts` | internal/controller/vsphereagentpool_controller.go:1043-1058 | no assigned VM is bound or contradicts the hardware of its Agent |
| `AgentAssignment.AssignmentIsMaximal` | internal/controller/vsphereagentpool_controller.go:771-855 | an Agent without a VM has every VM that it could take given to another Agent |
| `AgentAssignment.WeakMatchOnlyAfterHardware` | internal/controller/vsphereagentpool_controller.go:774-855 | an Agent gets weaker evidence only if all its hardware matches went to other hardware matches |
| `VmLifecycle.BuildLookup` | internal/controller/vsphereagentpool_controller.go:356-374 | the three lookup maps hold the last VM of each name, UUID and MAC |
| `VmLifecycle.MergeOwnedVMs` | internal/controller/vsphereagentpool_controller.go:314-348 | the merge loop computes the merge of the recorded and the current inventory |
| `VmLifecycle.RefreshKnown` | internal/controller/vsphereagentpool_controller.go:864-903 | the first loop refreshes every known VM and collects matched Agents and known names |
| `VmLifecycle.RefreshOwnedVMs` | internal/controller/vsphereagentpool_controller.go:857-922 | both loops compute the refreshed inventory |
| `VmLifecycle.MarkOwnedVMAvailable` | internal/controller/vsphereagentpool_controller.go:1096-1107 | exactly the first VM of that name becomes available, with the Agent and without a Machine; in place |
| `VmLifecycle.PrepareAgents` | internal/controller/vsphereagentpool_controller.go:402-412 | the patched Agents, up to the first one that fails, mark the inventory one after the other; an Agent without hostname marks nothing |
| `VmCycles.PreparedIsAvailable` | internal/controller/vsphereagentpool_controller.go:1096-1107 | a VM for which some Agent was prepared is available, has no Machine and keeps its identity; any other VM is as it was |
| `PoolPlanner.DeletedMachineTargets` | internal/controller/planner.go:289-312 | selects exactly the eligible released VMs whose Machine is deleted |
| `PoolPlanner.SurplusTargets` | internal/controller/planner.go:314-355 | selects the first returned VMs with an unbound Agent, in the order of the list, exactly as many as there are or as the surplus allows |
| `PoolPlanner.OrphanTargets` | internal/controller/planner.go:380-405 | selects exactly the orphans past their grace period that are not selected yet |
| `PoolPlanner.VMsToDelete` | internal/controller/planner.go:162-175 | the selection is the VMs whose Machine is gone, then without demand as many spare VMs as there are unbound Agents, then the orphans that are due; every selected VM is justified, nothing due is forgotten, and no name is selected twice |
| `PoolPlanner.JustifiedIff` | internal/controller/planner.go:285-409 | the three reasons for deleting a VM in plain terms, with the grace period of half an hour |
| `VmRefresh.MatchedPhase` | internal/controller/vsphereagentpool_controller.go:882-902 | the phase of a VM with an Agent as one table over its state, its Agent and the listed Machines |
| `VmRefresh.MatchedIdentity` | internal/controller/vsphereagentpool_controller.go:1161-1181 | what a VM takes over from its Agent, which Machine it refers to afterwards, and what it keeps |
| `VmRefresh.MatchedSince` | internal/controller/vsphereagentpool_controller.go:1134-1141 | when the time of the last change stays and when it is renewed |
| `VmRefresh.UnmatchedOutcome` | internal/controller/vsphereagentpool_controller.go:871-881 | a VM without Agent is left alone while its Machine is listed, waits when that is being deleted, and otherwise becomes orphaned or goes on waiting for its Agent |
| `VmRefresh.MissingAgentHasGrace` | internal/controller/vsphereagentpool_controller.go:871-881 | over any refreshes and listings a VM that lost its Agent is orphaned if and only if some refresh missed its Machine too since that was last listed as being deleted, and is deletable exactly half an hour after the first such refresh |
| `VmRefresh.ListedMachineKeepsVM` | internal/controller/vsphereagentpool_controller.go:871-881 | as long as its Machine is listed such a VM is not deletable as an orphan |
| `VmRefresh.NewVMHasDiscoveryPeriod` | internal/controller/vsphereagentpool_controller.go:1086-1094 | over any refreshes and listings a VM that was never discovered is left alone until a refresh without Machine comes after its discovery period |
| `VmRefresh.DiscoveredExactly` | internal/controller/vsphereagentpool_controller.go:904-920 | the entries that a refresh adds are exactly those of the unmatched Agents that are the first to report an unknown hostname |
| `VmRefresh.DiscoveredOutcome` | internal/controller/vsphereagentpool_controller.go:1150-1159 | how such a host is recorded |
| `VmRefresh.RefreshExactly` | internal/controller/vsphereagentpool_controller.go:857-922 | a refresh goes through the inventory entry by entry, from the matching Agent or without one, and appends exactly the discovered hosts |
| `VmRefresh.MachineStatesMean` | internal/controller/vsphereagentpool_controller.go:859-862 | Machines are known by their last entry in the list |
| `VmRefresh.MergeOutcome` | internal/controller/vsphereagentpool_controller.go:314-348 | the recorded entry of a VM is the last of its name, else of its BIOS UUID, else of its MAC; its lifecycle and missing identity are taken over unless owner or UUID differ |
| `VmRefresh.MarkOutcome` | internal/controller/vsphereagentpool_controller.go:1096-1107 | preparing an Agent makes the first VM of the assigned name available without Machine and changes no other |
| `VmCycles.SelectedOnlyAfterMachineDeletion` | internal/controller/vsphereagentpool_controller.go:857-922 | over any cycles a VM that starts bound and keeps matching a bound Agent is selected only after a snapshot showed a Machine of it deleting, since when no Agent was prepared for it, and while the Machine it refers to is not listed; that Machine itself was seen deleting if and only if the observations say so |
| `VmCycles.DeletableMeansMachineWent` | internal/controller/vsphereagentpool_controller.go:1060-1077 | the same for one VM: it names the snapshot, and the VM waited ever since without being prepared for an Agent |
| `VmCycles.SeenDeletingIffConcerned` | internal/controller/vsphereagentpool_controller.go:887-901 | a Machine was seen deleting by the VM if and only if a snapshot listed it as deleting while the Agent named it, or named nothing while the VM waited for it; the exact condition for the Machine that a deletable VM refers to |
| `VmCycles.RecordedFromObserved` | internal/controller/vsphereagentpool_controller.go:887-901 | phase and Machine that the VM records are determined by the observed names and listings and by the Agents prepared in between: waiting, deletable and the Machine concerned, each if and only if |
| `VmCycles.SelectedForMachineNeverSeenDeleting` | internal/controller/vsphereagentpool_controller.go:887-901 | every bound VM with a known UUID has a run of the whole inventory after which it is selected because of a Machine that was never seen deleting: its Agent moved while the first Machine was deleting |
| `VmCycles.BoundOutcomes` | internal/controller/vsphereagentpool_controller.go:1161-1181 | with a bound Agent a VM ends bound, waiting for its Machine, or deletable, each only from the states and listings named |
| `VmCycles.StepFollowsVM` | internal/controller/vsphereagentpool_controller.go:314-348 | one cycle of preparing, merging and refreshing moves a tracked VM by its own step and leaves it the only one of its name |
| `VmCycles.CyclesFollowVM` | internal/controller/vsphereagentpool_controller.go:314-348 | the same over any number of cycles |
| `VmCycles.NeverSelected` | internal/controller/planner.go:407-409 | bound, provisioning and discovered-only VMs are never justified for deletion |
| `VmCycles.DiscoveredNeverSelected` | internal/controller/vsphereagentpool_controller.go:1150-1159 | a host known only through its Agent enters the inventory as discovered and is never selected |
| `VmCycles.ReleasedVMWaitsForMachine` | internal/controller/vsphereagentpool_controller.go:887-901 | an unbound Agent leaves the VM with its Machine; it is deletable if and only if that Machine is not listed |
| `VmCycles.MergeCarriesLifecycle` | internal/controller/vsphereagentpool_controller.go:320-344 | the merge carries the whole recorded lifecycle unless owner or UUID show another VM |
| `IsoRetention.UpdatedISOHistory` | internal/controller/vsphereagentpool_controller.go:1572-1590 | the current entry comes first, then as many of the earliest older entries as fit, in their order: which ones, how many and where is stated without the loop |
| `IsoRetention.StaleISOPaths` | internal/controller/vsphereagentpool_controller.go:1611-1652 | the loops return, once each, exactly the tracked paths that are not kept |
| `IsoRetention.KeptAndStalePartition` | internal/controller/vsphereagentpool_controller.go:1572-1652 | kept and stale paths partition the tracked ones for every history and retain count; the current path is never stale |
| `IsoRetention.KeptCount` | internal/controller/vsphereagentpool_controller.go:1572-1590 | without repeated paths exactly the smaller of their number and the limit is kept, and no path is repeated |
| `IsoRetention.NothingStaleWhileRoom` | internal/controller/vsphereagentpool_controller.go:1611-1652 | as long as all paths fit, nothing is stale |
| `IsoRetention.EnsureEntry` | internal/controller/vsphereagentpool_controller.go:1592-1600 | the history gains exactly the path that was missing |
| `IsoRetention.FindEntry` | internal/controller/vsphereagentpool_controller.go:1602-1609 | finds the first entry of a path if and only if the path is in the history |
| `IsoCache.DownloadISO` | internal/controller/vsphere_provider.go:797-851 | a 304 is accepted if and only if a validator was sent; a body is taken over as it is |
| `IsoCache.RetainVersions` | internal/controller/vsphereagentpool_controller.go:1565-1570 | the wanted number of copies, two by default |
| `IsoCache.Cache.VerifyISO` | internal/controller/vsphere_provider.go:381-398 | valid if and only if the copy can be read and has the digest |
| `IsoCache.Cache.Publish` | internal/controller/vsphere_provider.go:326-349 | a file reaches its content path only after its staged copy was verified, and exactly when every step works and the right bytes arrive; nothing else is lost or changed |
| `IsoCache.Cache.EnsureISO` | internal/controller/vsphere_provider.go:262-350 | success if and only if the answers lead to a usable copy; one that is not deferred returns the content path of a digest that the stored file has; a deferred one repeats the recorded identity after a confirmed validator; another source or a new refresh request never reuses the recorded copy |
| `IsoCache.Cache.Prune` | internal/controller/iso_cache.go:88-100 | exactly the stale paths whose delete works go, the others stay in the history, and nothing else is touched |
| `IsoCache.Cache.RecordCurrent` | internal/controller/iso_cache.go:68-86 | the status names the verified ISO field by field, and its history keeps the first entries of the previous one |
| `IsoCache.Cache.EnsureISOCache` | internal/controller/iso_cache.go:31-118 | a refresh completes if and only if it is due and the answers lead to a verified copy; it leaves every tracked path in the history or deleted, not both, and the current copy tracked, stored and verified; as long as the copies fit nothing is deleted, and with working deletes exactly the wanted number stays |
| `IsoCache.Cache.RefreshRepeatedly` | internal/controller/iso_cache.go:31-118 | any number of calls is a sequence of refresh steps from the old state to the new one |
| `IsoCache.NothingTrackedIsLost` | internal/controller/iso_cache.go:58-100 | over any sequence of refreshes a tracked path is still tracked, or some refresh stopped tracking it with the datastore no longer holding it |
| `IsoCache.CurrentCopySurvives` | internal/controller/iso_cache.go:88-100 | over any sequence of refreshes the current copy stays in the datastore |
| `DemandClaim.ClaimIsWriteOnce` | internal/controller/openstackagentpool_controller.go:67-85 | a stored claim never changes, under any interleaving of reconcilers with stale copies |
| `DemandClaim.WorkersServeTheClaimedPool` | internal/controller/agentmachine_controller.go:88-113 | all workers ever created for an AgentMachine, by either provider, were created for the one pool that claimed it |
| `DemandClaim.OneNamedWorkerPerMachine` | internal/controller/openstackagentpool_controller.go:134-163 | at most one worker with the controller-given name exists per AgentMachine, in any namespace |
| `DemandClaim.SecondClaimConflicts` | internal/controller/openstackagentpool_controller.go:77-85 | of two claimants that read the AgentMachine unclaimed the second gets a conflict |
| `DemandClaim.StepKeepsInv` | internal/controller/openstackagentpool_controller.go:69-163 | every step keeps the claim invariant |
| `DemandClaimCode.CountCandidates` | internal/controller/openstackagentpool_controller.go:118-133 | a foreign worker is reported if and only if one is listed, otherwise the own ones are counted |
| `DemandClaimCode.Choose` | internal/controller/agentmachine_controller.go:88-104 | exactly one matching pool is served |
| `DemandClaimCode.DemandReconciler.ClaimDemand` | internal/controller/openstackagentpool_controller.go:69-85 | success means that the stored claim names this pool; it fails only for another claim, an outdated copy or a failed patch |
| `DemandClaimCode.DemandReconciler.EnsureOpenStackAgent` | internal/controller/openstackagentpool_controller.go:102-163 | success means a worker under the claim: one listed, a new one, or the existing one of that name, which always belongs to this pool; every failure names its reason |
| `DemandClaimCode.DemandReconciler.CreateOrFind` | internal/controller/openstackagentpool_controller.go:134-163 | the worker of the controller-given name is created, or found and then belongs to this pool; only a failed call or its disappearance is an error |
| `DemandClaimCode.DemandReconciler.EnsureVsphereAgent` | internal/controller/agentmachine_controller.go:137-165 | a VsphereAgent is created only under the claim, under the first of two names that is free; it fails only if both names serve other demand, for the claim, or for a failed call |
| `DemandClaimCode.DemandReconciler.Reconcile` | internal/controller/agentmachine_controller.go:62-115 | the run goes on from the old state; an AgentMachine that waits and matches exactly one pool is served by that pool, which then holds the claim; all that was ever created for it belongs to the claimed pool |

## Left out

- OpenStack and vSphere clients, authentication, TLS, HTTP policy, error classification and redaction: foreign calls with no protocol of their own; their outcomes are arbitrary choices or scripts.
- ScopeHash, ISO size checks, label and ownership errors of caches and resources: extra refusals that only end a reconcile early.
- Attachment, volume and server states, SetBootable, hosts and Machines of an OpenStack worker: arbitrary observations in the OpenStack part; the unapproval of hosts by authorizeCleanup follows the protocol of `VmDeletion`.
- OpenStackCleanup.CleanupPassProgresses: nobody else acts inside the pass; with interference at every call the progress of one pass is the last clause of OpenStackReconciler.Reconciler.Cleanup.
- OpenStackCleanup.CleanupFinishes: others act between the seven passes, not inside one; OpenStackReconciler.Reconciler.ReconcileRepeatedly gives the bound with interference at every call.
- VmCycles.SelectedOnlyAfterMachineDeletion: follows a VM whose name is unique in the recorded and current inventory and is not taken over by another VM.
- AgentAssignment.AssignHostnames: assumes unique Agent names, as they are in one namespace.
- AgentsToDelete, AgentsToPatch, counts and action texts of the plan: reported or one-branch facts.
- IsoEjection.ClearedMeansReleased: assumes that the device keys of a VM are unique, as vSphere guarantees.
- Persisting the pool ISO status across concurrent reconcilers: it deliberately drops older results, so retention is stated per completed refresh and for sequences of persisted refreshes.
- isoCacheDue, the interval checks, timeouts and tickers: time is a parameter or an arbitrary choice; the disconnect goroutine is a sequence of polls.
- IsoCache.Cache.EnsureISO: other writers of the same datastore path during the call are not modelled.
- vmManagedByAnotherVsphereAgent, cleanup policy of a deleted pool, adoption of VMs, VM creation: not part of this model.
- DemandClaim.OneNamedWorkerPerMachine: says nothing about workers that users create under names of their own.
- AgentMachine selector pinning, the shortcut for an AgentMachine that already has an Agent, watch predicates, events, metrics, conditions and manager setup: plumbing.
