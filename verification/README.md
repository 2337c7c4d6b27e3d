# Models of UB-LRPC, the domain pool and the social-network RPC stack

This project models the protocols and algorithms at the heart of the repository and proves what they
promise, for every input, every interleaving and every run.

* **Caller/shadow handoff** (`Lrpc*.dfy`). The kernel driver lets a caller hand its CPU to a shadow task
  and sleep until the shadow returns. Every region under a channel's lock, every wake-up, signal, mmap and
  file release is one step of a machine over files, channels, tasks, references and pages. `HandoffChannel`
  is the channel the driver mutates; `AStackDevice` allocates its argument pages. `LrpcDelivery` relates
  disciplined callers to a reference protocol, `LrpcCalls` says what holds call by call for any callers,
  `LrpcHandoff` what each hand-off carries, `LrpcRegistration` exactly when each request to the driver succeeds.
* **Domain pool** (`Pool*.dfy`, `PageTables.dfy`). Clients on host A and a polling owner on host B share a
  region of 1024 pages. A writes a contract word by word and stores a nonce in `request`; B copies the
  contract, checks it, writes page tables page by page and stores the nonce in `complete`. `Owner` is the
  poll of B as one call; `PoolProtocol` interleaves single loads and stores of both hosts. `PoolProgress` counts
  the turns of B until a request is answered. `PoolSlots` is the kernel's slot allocator with quarantine,
  `PoolAllocation` the protocol over that allocator.
* **SDK and import registry** (`Registry*.dfy`, `ClientClose.dfy`). Regions share reference-counted imports
  and a process-wide SDK; every SDK call may fail and every close may be retried. `RegistryList` is the
  linked list and the counters as the library keeps them.
* **Messages** (`Wire.dfy`, `WireIo.dfy`, `Utf8.dfy`, `Messages.dfy`, `MessageLaws.dfy`, `MessageObjects.dfy`,
  `MessageFormat.dfy`, `MessageTexts.dfy`, `MessageSurvival.dfy`, `RequestObject.dfy`, `PostObject.dfy`,
  `PostMessage.dfy`). The generated protobuf code for Creator, UserMention, Media, Url, PostStorageReadReq and Post:
  values and laws first, then the objects with presence bits, cached sizes and unknown fields that size, write, parse
  and merge themselves. The laws ask that the unknown bytes of a message be records its type does not know; parsing
  and merging leave no others (`MessageSurvival`). Creator, UserMention and Media have the same two fields and share
  one model, `ProfileMsg`.
* **Procedure table** (`ProcedureTable.dfy`, `CodeHash.dfy`), **experiment planner and checker** (`CpuBlocks.dfy`,
  `Planner.dfy`, `PlannerAudit.dfy`), **pointer chain** (`PointerChain.dfy`), **request window and payload**
  (`RequestWindow.dfy`, `HelloPayload.dfy`, `Bits.dfy`) and **heartbeats** (`Heartbeat.dfy`,
  `HeartbeatLimits.dfy`, `HeartbeatClock.dfy`).

A run is a sequence of states and of the steps between them; a theorem over runs holds in every state of
every run. Clocks, random numbers, SDK answers, system-call failures and message arrivals are step or method
parameters, so they may be anything. Loads and stores of shared words are single steps in one global order.

Where a stated promise turned out not to hold as it stands, an input and the exact condition are proved:

* A second caller may enter a channel between RETURN and the first caller's wake-up. A call gets its own answer if
  and only if no other CALL is accepted on its channel meanwhile (`ReturnedResultIsTheAnswer`), and a caller that
  sleeps has its call pending and is the one to be woken under that same condition and no other
  (`SleepingCallerHasPendingCallIff`); `FirstGetsSecondsAnswer` and `FirstIsStranded` are runs from probe.
* The serializer does not reject invalid UTF-8 but the parser does: the round trip holds if and only if every
  string is valid (`PostMerges`, `PostRoundTrip`, `InvalidTextIsRefused`), which is to say that every string encodes
  some sequence of Unicode scalar values (`PostSurvivesIff`).
* `prepare` accepts an input that lacks services the checker needs, and plans a lone client without the id the
  checker's endpoint list asks for: `PreflightIff` gives the condition, `MissingServiceSlipsThrough` and
  `LoneClientIsRefused` the inputs.
* Recording a heartbeat never overwrites a time, so a live remote is reported too: a check reports if and only if the
  timeout has passed since tracking began (`CheckReportsIff`, `LiveRemoteIsReported`).
* The heartbeat loop stops at a due event of an untracked remote and leaves it in the queue. `CallHandlesAllDueIff`
  says exactly which calls, with the clock standing still and a timeout of at least ten cycles, handle everything that
  is due; `FailureLeavesOrphan` and `OrphanCapsQueue` say what every report leaves behind and holds up,
  `BlockedIsReachable` gives a run, `ReAddingUnblocks` the way out.
* A call of the heartbeat loop is sure to end if and only if the timeout is at least ten cycles: after every run and
  under every clock that never goes back (`CallsEndAfterAllRunsIff`), and from any state whatever while the clock
  stands still (`EveryCallEndsIff`); `ShortTimeoutStalls` is a run.
* The expected checksum of a request run is halved after its 64-bit product may have wrapped: `HonestRunAddsUp`
  gives the exact condition, which holds up to 2^32 requests.

A client writes its extra contract before it looks at `request` and `complete`. That this never reaches an owner
in the middle of a copy (`SnapshotIsNeverTorn`) rests on the kernel: a slot whose session ended uncommitted is
never handed out again.

## Model

| member | source | states |
|---|---|---|
| LrpcFile.BindFindsPublished | eRPC-LRPC/kernel/ub_lrpc.c:257-334 | Against a valid publication BIND fails with -EAGAIN until it is sealed; then it succeeds exactly for a published id and matching epoch, with the first such procedure, whose code lies in the image and whose A-stack fits |
| LrpcFile.BindIsOnce | eRPC-LRPC/kernel/ub_lrpc.c:298-308 | A file of another role, or one that is bound already, is refused with its own error and left as it is |
| LrpcFile.BoundFileMapsItsAStack | eRPC-LRPC/kernel/ub_lrpc.c:319-334 | The offset BIND returns can be mapped: any whole pages up to the slot from there are granted, any other offset or longer request in the A-stack window is refused; the answer names the procedure's entry, code size, hash and frame size |
| LrpcFile.MapFileIsConfined | eRPC-LRPC/kernel/ub_lrpc.c:490-559 | A granted mapping is never executable, never writable code for a shadow, in bounds of the BAR part its role allows, and an A-stack mapping needs a binding |
| LrpcFile.MapFileGrantsIff | eRPC-LRPC/kernel/ub_lrpc.c:490-559 | A request is granted if and only if it asks for whole non-executable pages of the file's own A-stack slot, of code it may write or read, of its own measurement slot, or of shared data in range; what is granted is what was asked for, and a refusal has its own error |
| LrpcChannel.RegionsKeepChannelOk | eRPC-LRPC/kernel/ub_lrpc.c:355-484 | Every locked region keeps owner, shadow task, mm and cpu set together, an unowned channel idle, and a pending call with a caller to wake |
| LrpcChannel.HandoffChannel.constructor | eRPC-LRPC/kernel/ub_lrpc.c:599-660 | A probed channel is unregistered and idle |
| LrpcChannel.HandoffChannel.RegisterShadow | eRPC-LRPC/kernel/ub_lrpc.c:355-371 | Registers the shadow's owner, task, mm and cpu together, or -EBUSY and no change |
| LrpcChannel.HandoffChannel.EnterCall | eRPC-LRPC/kernel/ub_lrpc.c:406-444 | Checks in source order with their error codes; on success stamps the handoff, sets pending and the caller, and names whom to wake |
| LrpcChannel.HandoffChannel.ResumeCall | eRPC-LRPC/kernel/ub_lrpc.c:445-459 | A woken caller goes on sleeping while pending, else leaves with the handoff |
| LrpcChannel.HandoffChannel.WaitCall | eRPC-LRPC/kernel/ub_lrpc.c:372-397 | The shadow sleeps, is refused, or takes the pending handoff |
| LrpcChannel.HandoffChannel.ReturnCall | eRPC-LRPC/kernel/ub_lrpc.c:460-484 | Stores the result, clears pending, names the caller to wake, and the shadow sleeps |
| LrpcChannel.HandoffChannel.ReleaseFile | eRPC-LRPC/kernel/ub_lrpc.c:199-225 | The owner's release clears the channel and answers a pending call with -EPIPE; another file's release changes nothing |
| LrpcAStacks.AStackDevice.AllocAStacks | eRPC-LRPC/kernel/ub_lrpc.c:114-141 | Succeeds exactly if no request of the run is refused; then every channel has its pages, all different and new; on -ENOMEM every page taken on the way is given back |
| LrpcAStacks.AStackDevice.AllocRow | eRPC-LRPC/kernel/ub_lrpc.c:121-134 | One channel gets its table and all its pages exactly if none of these requests is refused |
| LrpcAStacks.AStackDevice.FreeAStacks | eRPC-LRPC/kernel/ub_lrpc.c:99-112 | Frees each page the tables hold exactly once; the allocator is left with what others own |
| LrpcSafety.StepKeepsInv | eRPC-LRPC/kernel/ub_lrpc.c:237-484 | Every ioctl region, wake-up, signal, map and release keeps the channel and task invariants |
| LrpcSafety.RunKeepsInv | eRPC-LRPC/kernel/ub_lrpc.c:199-484 | The channel and task invariants hold in every state of every run |
| LrpcSafety.SleepingShadowHasNoPendingCall | eRPC-LRPC/kernel/ub_lrpc.c:372-397 | In every reachable state a shadow blocked in WAIT_CALL or RETURN has no call pending on its channel |
| LrpcRefs.StepConserves | eRPC-LRPC/kernel/ub_lrpc.c:207-232 | Every step keeps references held equal to channel fields naming a task or mm plus drops not yet made |
| LrpcRefs.RunConservesRefs | eRPC-LRPC/kernel/ub_lrpc.c:355-371 | That equation holds for every task and mm in every state of every run |
| LrpcRefs.NamedTasksArePinned | eRPC-LRPC/kernel/ub_lrpc.c:426-443 | A task or mm a channel names is held by at least one reference in every reachable state |
| LrpcRefs.NothingLeaksAfterLastClose | eRPC-LRPC/kernel/ub_lrpc.c:199-235 | With every file released and every drop made, no reference is held |
| LrpcDelivery.StepRefines | eRPC-LRPC/kernel/ub_lrpc.c:398-484 | Each step of a channel with one outstanding caller is a step of the three-state call protocol, with the same observation |
| LrpcDelivery.RunRefinesProtocol | eRPC-LRPC/kernel/ub_lrpc.c:398-484 | Every run with one outstanding caller per channel is a run of the call protocol |
| LrpcDelivery.ProtocolHistory | eRPC-LRPC/kernel/ub_lrpc.c:398-484 | In the protocol a waiting call was started, and an answered call was started and then answered once, with the result it carries |
| LrpcCalls.StepShows | eRPC-LRPC/kernel/ub_lrpc.c:398-484 | Every step, whoever calls, keeps: a call is pending exactly if the latest turn on the channel is a start, otherwise the stored result is the latest answer; starts and answers alternate; the latest caller is the one to be woken and sleeps only while pending |
| LrpcCalls.RunShows | eRPC-LRPC/kernel/ub_lrpc.c:398-484 | So it is in every state of every run |
| LrpcCalls.CallEntered | eRPC-LRPC/kernel/ub_lrpc.c:406-444 | Whoever is inside CALL entered it at a step of the run and has not left since |
| LrpcCalls.OwnAnswerIff | eRPC-LRPC/kernel/ub_lrpc.c:426-484 | Where starts and answers alternate, the latest answer is the first one after a start if and only if no other start came between |
| LrpcCalls.ReturnedResultIsTheAnswer | eRPC-LRPC/kernel/ub_lrpc.c:445-484 | In every run a CALL that returns carries the latest answer on its channel, a RETURN value or -EPIPE; that is the answer to this call if and only if no other CALL was accepted on the channel between its entry and its return |
| LrpcCalls.SerialRunsDeliver | eRPC-LRPC/kernel/ub_lrpc.c:406-444 | With one outstanding caller at a time no other CALL is accepted during a call |
| LrpcCalls.SleepingCallerHasPendingCallIff | eRPC-LRPC/kernel/ub_lrpc.c:445-459 | In every state of every run, a caller asleep in CALL has its call pending and is the one to be woken if and only if no other CALL has been accepted on its channel since it entered |
| LrpcCalls.OutstandingCallCanProgress | eRPC-LRPC/kernel/ub_lrpc.c:445-484 | As long as no other CALL is accepted, a call is pending with a registered shadow that is not asleep waiting for it, or its caller is runnable and its next step finishes the call |
| LrpcSecondCaller.FirstGetsSecondsAnswer | eRPC-LRPC/kernel/ub_lrpc.c:426-484 | A run from probe in which a second CALL between RETURN and the first caller's wake-up makes the first caller return with the second answer |
| LrpcSecondCaller.FirstIsStranded | eRPC-LRPC/kernel/ub_lrpc.c:426-484 | A run from probe after which the first caller sleeps uninterruptibly with no call pending and another task to be woken |
| LrpcHandoff.StepStamps | eRPC-LRPC/kernel/ub_lrpc.c:355-484 | What every step makes of a channel's handoff: a CALL replaces it by its own request, WAIT_CALL, RETURN and the resuming caller each add their time, and nothing else touches it |
| LrpcHandoff.TakenRequestIsTheCall | eRPC-LRPC/kernel/ub_lrpc.c:372-398 | When WAIT_CALL replies, the latest turn on the channel is the start of a CALL, and the handoff is that caller's request: procedure of its file, task, cpu and entry time, stamped with the time of this step |
| LrpcHandoff.ReturnedTimesAreTheCalls | eRPC-LRPC/kernel/ub_lrpc.c:445-484 | A CALL that returns carries the request, result and times of the latest start, its own exactly if no other CALL was accepted meanwhile: entry, last dispatch, RETURN and its own resume |
| LrpcHandoff.BoundByRequest | eRPC-LRPC/kernel/ub_lrpc.c:294-334 | The procedure a bound file names is the one its BIND asked for |
| LrpcRegistration.RegisteredBy | eRPC-LRPC/kernel/ub_lrpc.c:355-371 | Whatever shadow a channel names was registered through a shadow's file bound to that channel, by a pinned task, with its address space and cpu |
| LrpcRegistration.CallAcceptedIff | eRPC-LRPC/kernel/ub_lrpc.c:399-430 | A CALL is accepted if and only if its file is a caller's, a shadow is registered, the task is in another address space and pinned to the shadow's cpu, and the latest turn is not a start; each refusal has its own error |
| LrpcRegistration.ReturnAcceptedIff | eRPC-LRPC/kernel/ub_lrpc.c:460-484 | RETURN answers if and only if its file owns the channel and the latest turn is a start; else it changes nothing |
| LrpcRegistration.WaitAnswers | eRPC-LRPC/kernel/ub_lrpc.c:372-398 | WAIT_CALL hands out a request, sleeps or fails, each exactly when it should |
| LrpcRegistration.RegisterAcceptedIff | eRPC-LRPC/kernel/ub_lrpc.c:355-371 | REGISTER succeeds exactly for a pinned task with an address space, through a bound shadow's file, on a free channel |
| LrpcRegistration.PublishAcceptedIff | eRPC-LRPC/kernel/ub_lrpc.c:257-292 | PUBLISH replaces the metadata, not yet ready, if and only if a publisher asks for something whose code and frames fit; else nothing changes |
| LrpcRegistration.InterruptedIff | eRPC-LRPC/kernel/ub_lrpc.c:385-390 | A woken shadow is sent back with -ERESTARTSYS if and only if a signal is pending, which is then consumed |
| LrpcRegistration.SignalWasSent | eRPC-LRPC/kernel/ub_lrpc.c:385-390 | A pending signal was sent to the task, or there from the start, and has not been noticed since |
| LrpcIsolation.RoleAndBindingNeverChange | eRPC-LRPC/kernel/ub_lrpc.c:244-334 | Once set, a file's role and binding stay the same for its whole life |
| LrpcIsolation.MappingsStayConfined | eRPC-LRPC/kernel/ub_lrpc.c:490-559 | In every state of every run each live mapping is one its file may have, and reaches only pages of its bound channel |
| LrpcIsolation.OtherChannelsKeepFrame | eRPC-LRPC/lib/lrpc.c:264-285 | Whatever files bound to other channels do, nested invokes included, the A-stack frame of a channel keeps its content |
| LrpcIsolation.PeersShareTheirFrame | eRPC-LRPC/kernel/ub_lrpc.c:506-527 | In every state of every run the same page of two A-stack mappings is one physical page if and only if their files are bound to the same procedure |
| LrpcIsolation.PeersSeeStores | eRPC-LRPC/kernel/ub_lrpc.c:506-527 | A store is seen on the same page of every mapping of the procedure and on no other page |
| PoolLayout.LayoutIsDisjoint | eRPC-LRPC-UB/lib/ub_domain_pool.c:6-18 | Slots share no page with each other, the shared page, the heap, images or contexts, and lie in the region |
| PoolLayout.FieldsReadBack | eRPC-LRPC-UB/include/uapi/linux/ub_lrpc_ub_domain.h:28-36 | Each field of a contract is read from the words where the structure has it |
| PageTables.FillTable | eRPC-LRPC-UB/include/lrpc/ub_domain_layout.h:32-54 | The loop and stores leave exactly the specified table in the page |
| PageTables.DecodeDescriptor | eRPC-LRPC-UB/include/lrpc/ub_domain_layout.h:38-52 | A descriptor decodes to its address, attribute index, write and execute permission |
| PageTables.WalkRoutes | eRPC-LRPC-UB/include/lrpc/ub_domain_layout.h:43-45 | From each routing level the walk goes to the next table of the contract or faults |
| PageTables.WalkIsIntended | eRPC-LRPC-UB/include/lrpc/ub_domain_layout.h:32-54 | For every virtual page of a 48-bit space the four-level walk gives exactly the page the contract intends or a fault, never writable and executable |
| PageTables.ExtraWalkIsIntended | eRPC-LRPC-UB/include/lrpc/ub_domain_layout.h:103-108 | Through the tables built for an extra entry the four-level walk gives that entry's own code, run and not written, its own stack, written and not run, the heap, the middle or leaf arguments, and a fault everywhere else |
| PageTables.MemoryTypesDiffer | eRPC-LRPC-UB/include/lrpc/ub_domain_layout.h:15-19 | Two pages of a domain have the same memory type exactly if both or neither are memory of B |
| PageTables.WritePageIsApart | eRPC-LRPC-UB/include/lrpc/ub_domain_layout.h:18-29 | The page a connection may write is reached in no other way |
| PageTables.ExtraCodeIsApart | eRPC-LRPC-UB/include/lrpc/ub_domain_layout.h:69-102 | The code page of an extra domain is reached through no other domain and nowhere else in its own |
| PageTables.ExtraStackIsApart | eRPC-LRPC-UB/include/lrpc/ub_domain_layout.h:69-102 | The same for its stack page |
| PageTables.ExtraTablesAreApart | eRPC-LRPC-UB/include/lrpc/ub_domain_layout.h:91-102 | The tables of an extra domain are reached through no domain at all |
| PoolRegion.PollSlotIsolation | eRPC-LRPC-UB/lib/ub_domain_pool.c:94-112 | Answering a slot changes only that slot's pages, its write page only for the write profile |
| PoolRegion.PollAllPages | eRPC-LRPC-UB/lib/ub_domain_pool.c:64-114 | One poll treats each slot exactly as if it were alone |
| PoolRegion.PollKeepsSharedPages | eRPC-LRPC-UB/lib/ub_domain_pool.c:95-97 | Shared page, heap, images and contexts survive every poll |
| PoolRegion.RejectedRequestOnlyReports | eRPC-LRPC-UB/lib/ub_domain_pool.c:73-93 | A rejected request completes with EINVAL and leaves tables and write page untouched |
| PoolRegion.AcceptedRequestIsPublished | eRPC-LRPC-UB/lib/ub_domain_pool.c:94-111 | An accepted request completes without error, counts one initialization, and has all tables of its contract |
| PoolRegion.SecondPollIsIdle | eRPC-LRPC-UB/lib/ub_domain_pool.c:64-71 | After a poll nothing is pending; a second poll answers none and changes nothing |
| PoolRegion.SocialCounts | eRPC-LRPC-UB/include/lrpc/ub_remote_social.h:46-54 | The four tags that stand for one or three nginx instances, and no others |
| PoolOwner.Owner.Check | eRPC-LRPC-UB/lib/ub_domain_pool.c:72-93 | The verdict is 0 exactly for an acceptable contract, manifest and extra contract |
| PoolOwner.Owner.BuildBaseTables | eRPC-LRPC-UB/lib/ub_domain_pool.c:98-99 | The nested loops write all sixteen tables and nothing else |
| PoolOwner.Owner.BuildExtraTables | eRPC-LRPC-UB/lib/ub_domain_pool.c:100-108 | The nested loops write all sixteen extra tables and nothing else |
| PoolOwner.Owner.BuildTables | eRPC-LRPC-UB/lib/ub_domain_pool.c:94-108 | Every page of the region becomes what publishing the slot makes of it |
| PoolOwner.Owner.AnswerSlot | eRPC-LRPC-UB/lib/ub_domain_pool.c:64-113 | One turn of the slot loop turns the region into the answered one and says whether the slot was pending |
| PoolOwner.Owner.Poll | eRPC-LRPC-UB/lib/ub_domain_pool.c:55-115 | The region becomes the polled one, the result is the number of pending slots; -EINVAL and no change for an invalid header |
| PoolSafety.GuardPasses | eRPC-LRPC-UB/lib/ub_domain_client.c:178-183 | Under any interleaving the guard before the contract copy never turns a client away |
| PoolSafety.GuardStops | eRPC-LRPC-UB/lib/ub_domain_client.c:181-183 | A slot with a request outstanding, or that carries the nonce already, turns a client away with nothing written |
| PoolSafety.CommitSucceeds | eRPC-LRPC-UB/kernel/ub-domain/domain.c:474-602 | A client that saw its nonce and no error always passes the kernel's comparison of record and tables |
| PoolRuns.OwnerTurnKeepsInv | eRPC-LRPC-UB/lib/ub_domain_pool.c:64-113 | Every single load, store and page write of the owner keeps the protocol invariant |
| PoolRuns.StepKeepsInv | eRPC-LRPC-UB/lib/ub_domain_client.c:144-197 | So does every step of every client, including giving up anywhere and closing |
| PoolRuns.RunKeepsInv | eRPC-LRPC-UB/lib/ub_domain_client.c:144-197 | The protocol invariant holds in every state of every interleaved run |
| PoolTheorems.PublicationIsSafe | eRPC-LRPC-UB/lib/ub_domain_client.c:189-197 | Once a client has seen its nonce without error, its contract was acceptable and every table of its slot is the one built from it, in every later state in which the slot still carries its request, also after it has closed |
| PoolTheorems.LiveRequestStands | eRPC-LRPC-UB/lib/ub_domain_client.c:189-197 | Until a client closes, its slot carries its request |
| PoolTheorems.ConnectionSeesItsContract | eRPC-LRPC-UB/lib/ub_domain_client.c:160-177 | With tables at the addresses the contract names, every translation is the intended one for as long as the slot carries the request |
| PoolTheorems.ExtraDomainSeesItsContract | eRPC-LRPC-UB/lib/ub_domain_pool.c:100-108 | The same for the extra domains: as long as the slot carries the request, every translation from an extra root is the extra entry's own |
| PoolTheorems.LiveConnectionIsAccepted | eRPC-LRPC-UB/lib/ub_domain_pool.c:73-93 | Contract and extra contract of a live connection carry its nonce, it can write a page of B exactly if the pool grants it, and a social pool's manifest and heap agree |
| PoolWrites.NewConnectionFindsZeroes | eRPC-LRPC-UB/lib/ub_domain_pool.c:95-97 | In every run a new connection of a pool with private write pages finds its page zero, whoever wrote there before, until it writes itself |
| PoolWrites.WritesLandWhereGranted | eRPC-LRPC-UB/kernel/ub-domain/domain.c:238-245 | A service's write changes its own page or the shared one, as the profile says, and no other page |
| PoolTheorems.SnapshotIsNeverTorn | eRPC-LRPC-UB/lib/ub_domain_pool.c:68-72 | While the owner copies, no client writes that slot, and the copy is a prefix of the contract of the session that posted the request |
| PoolTheorems.QuarantineIsForEver | eRPC-LRPC-UB/README.md:211-215 | A slot left uncommitted stays quarantined and has no live session in any later state |
| PoolTheorems.StepStaysInItsSlot | eRPC-LRPC-UB/lib/ub_domain_pool.c:94-112 | A step changes only pages of the slot it works on, the shared page only by a service's own write |
| PoolTheorems.FixedPagesNeverChange | eRPC-LRPC-UB/lib/ub_domain_pool.c:94-112 | Header, heap, images and contexts keep their bytes over the whole run |
| PoolTheorems.CommitVerdict | eRPC-LRPC-UB/kernel/ub-domain/domain.c:474-602 | At every commit the comparison of record and tables succeeds, and any check of header, manifest, images, contexts and heap comes out as it would have when the pool was announced |
| PoolTheorems.ConnectionsAreIsolated | eRPC-LRPC-UB/lib/ub_domain_pool.c:94-112 | Whatever other clients join, fail, leave or write, every page of a committed connection keeps its content until it writes itself |
| PoolTheorems.SharedPageSurvivesJoins | eRPC-LRPC-UB/lib/ub_domain_pool.c:95-97 | What services put on the shared page survives every later join |
| PoolProgress.PendingIsAnswered | eRPC-LRPC-UB/lib/ub_domain_pool.c:64-112 | However clients interleave, give up or leave, a request that stands unanswered is answered, with the request still standing, within 892 turns of the owner, a turn being one load, store or page of its poll loop |
| PoolProgress.WaitingClientIsAnswered | eRPC-LRPC-UB/lib/ub_domain_client.c:189-195 | A client that has waited for that many turns of the owner finds its own nonce in `complete`, so its wait loop ends |
| PoolProgress.VisitAnswers | eRPC-LRPC-UB/lib/ub_domain_pool.c:64-112 | What stands unanswered in a slot when the pass comes to it is answered when the pass comes to the next slot |
| PoolTheorems.InitializationsAreCompletions | eRPC-LRPC-UB/lib/ub_domain_pool.c:109-111 | The initialization count of a slot is the number of requests completed there without error over the run, plus one while such a completion is imminent |
| PoolRefinement.SlotRuns | eRPC-LRPC-UB/lib/ub_domain_pool.c:64-113 | The owner's single steps on one slot, undisturbed, end in exactly the specified answer |
| PoolRefinement.PollRuns | eRPC-LRPC-UB/lib/ub_domain_pool.c:55-115 | An owner left alone finishes its poll in finitely many steps with exactly the region of the whole-poll specification, from any well-formed region |
| PoolSlots.BankOf | eRPC-LRPC-UB/kernel/ub-domain/pool_slots.h:16-26 | The first bank of a heap, or none has it |
| PoolSlots.FreeSlot | eRPC-LRPC-UB/kernel/ub-domain/pool_slots.h:27-30 | The lowest free slot; all below are in use |
| PoolSlots.Allocator.constructor | eRPC-LRPC-UB/kernel/ub-domain/pool_slots.h:6-9 | All banks empty |
| PoolSlots.Allocator.FindBank | eRPC-LRPC-UB/kernel/ub-domain/pool_slots.h:16-22 | One pass finds the heap's bank, or the first empty one |
| PoolSlots.Allocator.AcquireSlot | eRPC-LRPC-UB/kernel/ub-domain/pool_slots.h:10-32 | Grants or refuses, with its error code, exactly as specified, and marks only the granted slot |
| PoolSlots.Allocator.ReleaseSlot | eRPC-LRPC-UB/kernel/ub-domain/pool_slots.h:33-43 | Frees or quarantines the slot and resets a bank that becomes unused |
| PoolSlots.AcquireAnswers | eRPC-LRPC-UB/kernel/ub-domain/pool_slots.h:10-32 | A slot is granted if and only if the heap has a bank of the same generation with room, or none yet while one is empty; another generation is stale |
| PoolSlots.AcquireKeepsInv | eRPC-LRPC-UB/kernel/ub-domain/pool_slots.h:10-32 | A granted slot is the lowest free one, held by nobody and not quarantined; used slots are held or quarantined, never both |
| PoolSlots.ReleaseKeepsInv | eRPC-LRPC-UB/kernel/ub-domain/pool_slots.h:33-43 | Releasing a held slot keeps that, and never lifts a quarantine |
| PoolSlots.RunKeepsInv | eRPC-LRPC-UB/kernel/ub-domain/pool_slots.h:10-43 | It holds after every sequence of acquisitions and releases |
| PoolSlots.QuarantineIsForEver | eRPC-LRPC-UB/kernel/ub-domain/pool_slots.h:33-43 | A quarantined slot is never granted again, whatever is acquired and released |
| PoolAllocation.GrantTakesFreeSlot | eRPC-LRPC-UB/kernel/ub-domain/domain.c:330-341 | Seen from one heap, acquiring takes a slot that was free and puts just that one to use |
| PoolAllocation.ReleaseGivesBack | eRPC-LRPC-UB/kernel/ub-domain/domain.c:300-311 | Seen from one heap, releasing frees the slot, or leaves it in use and quarantined |
| PoolAllocation.JointStepKeepsInv | eRPC-LRPC-UB/kernel/ub-domain/domain.c:300-341 | Allocator and protocol agree on used and quarantined slots after every operation of this and of other pools |
| PoolAllocation.JointRunKeepsInv | eRPC-LRPC-UB/kernel/ub-domain/domain.c:300-341 | So they do in every state of every joint run |
| PoolAllocation.AllocatorServesProtocol | eRPC-LRPC-UB/kernel/ub-domain/domain.c:300-468 | Every run of sessions over the allocator is a run of the publication protocol with pauses; each grant is an enabled Prepare and each release of a slot one the allocator holds |
| Registry.FindName | eRPC-LRPC-UB/lib/backend_ubsm.c:136-137 | The first import of a name, or none has it |
| RegistryList.Imports.constructor | eRPC-LRPC-UB/lib/backend_ubsm.c:27-28 | An empty list |
| RegistryList.Imports.Lookup | eRPC-LRPC-UB/lib/backend_ubsm.c:136-137 | The list walk finds the first node of a name |
| RegistryList.Imports.Attach | eRPC-LRPC-UB/lib/backend_ubsm.c:135-166 | The locked part of a remote open changes list and region exactly as the step function says: join, new head node, or refusal |
| RegistryList.Imports.Unlink | eRPC-LRPC-UB/lib/backend_ubsm.c:184-185 | The pointer walk removes exactly the node, keeping the order of the others |
| RegistryList.Imports.Detach | eRPC-LRPC-UB/lib/backend_ubsm.c:177-189 | The locked part of a close unmaps and unlinks for the last region, else drops one reference; a failed unmap changes nothing |
| RegistryList.SdkCount.constructor | eRPC-LRPC-UB/lib/backend_ubsm.c:18-19 | No references, SDK down |
| RegistryList.SdkCount.Initialize | eRPC-LRPC-UB/lib/backend_ubsm.c:30-57 | Counts a reference exactly if the mode agrees and, for the first owned one, the SDK comes up |
| RegistryList.SdkCount.Release | eRPC-LRPC-UB/lib/backend_ubsm.c:58-69 | Drops a reference; the last owned one only if the SDK finalizes |
| RegistrySafety.StepKeepsInv | eRPC-LRPC-UB/lib/backend_ubsm.c:30-208 | Every critical section and SDK call, succeeding or failing, keeps the registry invariant |
| RegistrySafety.RunKeepsInv | eRPC-LRPC-UB/lib/backend_ubsm.c:30-208 | In every state of every run: names and nodes unique, each import's count equals the regions attached to it, the SDK count equals the regions holding it, live SDK mappings are exactly those in use, and everything acquired is released or still held |
| RegistrySafety.MappedRegionsStayMapped | eRPC-LRPC-UB/lib/backend_ubsm.c:126-208 | A region that counts as mapped is backed by a live SDK mapping and a node still in the list |
| RegistrySafety.FinalizeFindsNothingMapped | eRPC-LRPC-UB/lib/backend_ubsm.c:58-69 | The SDK is asked to finalize only while it is up and no mapping or import remains |
| RegistrySafety.NothingLeaksWhenAllClosed | eRPC-LRPC-UB/lib/backend_ubsm.c:170-208 | When all regions are closed, every map has one unmap, every initialization one finalization, every allocation one deallocation but for those that closes were told to keep, and nothing else remains |
| RegistrySafety.AllocationsBalance | eRPC-LRPC-UB/lib/backend_ubsm.c:71-208 | In every state of every run each allocation has been deallocated, is owned by one region, or lost its owner when that region was opened again after a close that did not deallocate |
| RegistrySafety.NothingStaysAllocated | eRPC-LRPC-UB/lib/backend_ubsm.c:170-208 | If every close asks to deallocate, then when all regions are closed every allocation has been deallocated, whatever failed and was retried on the way |
| RegistrySafety.StageMovesOn | eRPC-LRPC-UB/lib/backend_ubsm.c:170-208 | With the SDK cooperating each stage of a close advances or ends with the region cleared |
| RegistrySafety.RetryCompletes | eRPC-LRPC-UB/lib/backend_ubsm.c:170-208 | However many attempts failed, a close that meets no further failure clears the region, gives up ownership if asked to deallocate, and keeps the registry invariant |
| RegistryOpens.OwnerOpenCompletes | eRPC-LRPC-UB/lib/backend_ubsm.c:84-119 | An owner's open ends as owner with its own mapping, one allocation and one map more |
| RegistryOpens.RemoteOpenMaps | eRPC-LRPC-UB/lib/backend_ubsm.c:143-163 | A remote open of a new name ends attached to a new import of that name, size and base, with one map more and no allocation |
| RegistryOpens.RemoteOpenJoins | eRPC-LRPC-UB/lib/backend_ubsm.c:136-142 | A remote open of a known name and size ends attached to that import, counted once more, with no SDK call |
| RegistryOpens.OpenIsAllOrNothing | eRPC-LRPC-UB/lib/backend_ubsm.c:71-167 | An open ends with the region open, as owner exactly if asked to be, if and only if the SDK is there and the memory can be allocated and mapped or is imported with the same size; else the region holds nothing and the registry is as before |
| RegistryOpens.OpenKeepsRegistry | eRPC-LRPC-UB/lib/backend_ubsm.c:71-167 | A whole open, failed or not, keeps the registry invariant |
| ClientClose.Connection.constructor | eRPC-LRPC-UB/lib/ub_domain_client.c:68-232 | A handle as bind leaves it, at any stage |
| ClientClose.Connection.CloseChecked | eRPC-LRPC-UB/lib/ub_domain_client.c:368-388 | One attempt releases stage after stage and stops at the first failure |
| ClientClose.RetriesReleaseOnce | eRPC-LRPC-UB/lib/ub_domain_client.c:368-388 | From whatever bind has left, any number of attempts release each resource held at most once, the region last |
| ClientClose.SuccessMeansAllReleased | eRPC-LRPC-UB/lib/ub_domain_client.c:368-388 | An attempt reports success exactly when everything bind had left has been released once |
| ClientClose.FailureIsReported | eRPC-LRPC-UB/lib/ub_domain_client.c:368-388 | Success means every call of the attempt succeeded; from another thread nothing is touched |
| Wire.ToI64 | eRPC/social_network.pb.cc:646-650 | The signed reading of a 64-bit varint is the number with that two's complement |
| Wire.SignedIsTwosComplement | eRPC/social_network.pb.cc:691-694 | A number and its word differ by a multiple of 2^64, for enums as for int64 |
| MessageFormat.ProfileOnWire | eRPC/social_network.pb.cc:687-715 | The bytes of a Creator, UserMention or Media: id under 0x08, name under 0x12, then what was unknown |
| MessageFormat.LinkOnWire | eRPC/social_network.pb.cc:1450-1482 | The bytes of a Url: its strings under 0x0a and 0x12 |
| MessageFormat.RequestOnWire | eRPC/social_network.pb.cc:3369-3396 | The bytes of a request: packed ids under 0x0a, type under 0x10 |
| MessageFormat.PostOnWire | eRPC/social_network.pb.cc:2281-2356 | The bytes of a Post: nine fields, each under its own tag byte, in ascending order, then what was unknown |
| MessageFormat.FixedTypes | eRPC/social_network.pb.cc:664-676 | Eight bytes are read under wire type 1 and four under wire type 5 |
| Utf8.ValidUtf8Iff | eRPC/social_network.pb.cc:2189-2198 | Bytes are valid if and only if they are the encodings of some Unicode scalar values, one after the other |
| Utf8.TextIsUnique | eRPC/social_network.pb.cc:2189-2198 | Different texts have different encodings |
| Wire.ReadBack | eRPC/social_network.pb.cc:691-694 | Every varint reads back as itself whatever follows |
| Wire.RecBack | eRPC/social_network.pb.cc:687-715 | Every written record, fixed-width ones included, reads back exactly whatever follows |
| Wire.RecIsStable | eRPC/social_network.pb.cc:640-676 | A complete record reads the same whatever is appended |
| Wire.ParseEncoded | eRPC/social_network.pb.cc:637-684 | Parsing written records is applying them in order |
| Wire.ParseConcat | eRPC/social_network.pb.cc:637-684 | Parsing a complete message and more is parsing the more into that message |
| WireIo.WriteVarint | eRPC/social_network.pb.cc:691-694 | The loop writes exactly the varint and leaves the rest of the buffer |
| WireIo.ReadVarintAt | eRPC/social_network.pb.cc:648 | The loop reads exactly the specified number or fails |
| WireIo.ReadRecord | eRPC/social_network.pb.cc:641-665 | Tag, number or length and bytes are read exactly as specified |
| MessageLaws.ProfileMerges | eRPC/social_network.pb.cc:754-771 | Reading a written Creator, UserMention or Media into any message merges it, exactly if its text is valid UTF-8 |
| MessageLaws.ProfileRoundTrip | eRPC/social_network.pb.cc:637-746 | It reads back field for field and presence for presence exactly if its text is valid |
| MessageLaws.ProfileSizeIsLength | eRPC/social_network.pb.cc:717-746 | The computed size is the number of bytes written |
| MessageLaws.ConcatenatedProfilesMerge | eRPC/social_network.pb.cc:754-771 | The bytes of two messages in a row read as the merge of the second into the first |
| MessageLaws.LinkMerges | eRPC/social_network.pb.cc:1399-1539 | The same merge law for Url |
| MessageLaws.PostMerges | eRPC/social_network.pb.cc:2442-2474 | Reading a written Post into any Post merges it: last scalar wins, repeated fields append, the creator merges recursively, unknown fields append; it fails exactly if some string is invalid |
| MessageLaws.PostRoundTrip | eRPC/social_network.pb.cc:2156-2434 | Every Post below the length limit, unknown fields included, reads back exactly if all its strings are valid UTF-8 |
| MessageTexts.PostSurvivesIff | eRPC/social_network.pb.cc:2156-2434 | A Post reads back as written if and only if each of its strings encodes some scalar values; otherwise it is refused |
| MessageTexts.WrittenTextComesBack | eRPC/social_network.pb.cc:2156-2434 | Whatever sequence of scalar values is written as the text comes back, and as no other sequence |
| MessageLaws.PostSizeIsLength | eRPC/social_network.pb.cc:2361-2434 | The size, summed in the order of ByteSizeLong, is the number of bytes written |
| MessageLaws.ConcatenatedPostsMerge | eRPC/social_network.pb.cc:2442-2474 | The bytes of two Posts in a row read as the merge of the second into the first |
| MessageLaws.PackingDoesNotMatter | eRPC/social_network.pb.cc:3326-3335 | However the same ids are cut into packed runs and single values, and whatever follows, they read the same |
| MessageLaws.ReqMerges | eRPC/social_network.pb.cc:3441-3452 | Reading a written request into any request appends ids and unknown fields and takes the later type |
| MessageLaws.ReqRoundTrip | eRPC/social_network.pb.cc:3318-3433 | Every request below the length limit reads back exactly |
| MessageLaws.ReqSizeIsLength | eRPC/social_network.pb.cc:3398-3433 | The computed size is the number of bytes written |
| MessageLaws.ConcatenatedReqsMerge | eRPC/social_network.pb.cc:3441-3452 | The bytes of two requests in a row read as their merge |
| MessageLaws.InvalidTextIsRefused | eRPC/social_network.pb.cc:655-662 | A name of the single byte 0xff is written and refused when read |
| MessageSurvival.ParsedPost | eRPC/social_network.pb.cc:2156-2278 | Whatever is read has valid strings and, as unknown bytes, only records its type does not know, in all its parts |
| MessageSurvival.ParsedPostSurvives | eRPC/social_network.pb.cc:2156-2434 | Whatever bytes a Post was read from, it reads back exactly when written again, unknown fields included |
| MessageSurvival.PostMergeIsSound | eRPC/social_network.pb.cc:2442-2474 | The merge of two Posts with valid strings and only unknown records in their unknown bytes is such a Post |
| MessageSurvival.MergedPostSurvives | eRPC/social_network.pb.cc:2442-2474 | So what the merge of two such Posts writes, within the length limit, reads back as that merge |
| MessageSurvival.ParsedReqSurvives | eRPC/social_network.pb.cc:3318-3433 | Whatever bytes a request was read from, it reads back exactly when written again |
| MessageObjects.ProfileMsg.constructor | eRPC/social_network.pb.cc:592-598 | A new message is empty |
| MessageObjects.ProfileMsg.ByteSize | eRPC/social_network.pb.cc:717-746 | Computes and caches the size |
| MessageObjects.ProfileMsg.Serialize | eRPC/social_network.pb.cc:687-715 | Writes exactly the encoding and leaves the rest of the buffer |
| MessageObjects.ProfileMsg.Take | eRPC/social_network.pb.cc:643-676 | One turn of the loop is one application of the record: known fields set, unknown ones kept |
| MessageObjects.ProfileMsg.ParseFrom | eRPC/social_network.pb.cc:637-684 | The loop, with its local presence bits, ends as the specified parse does |
| MessageObjects.ProfileMsg.MergeFrom | eRPC/social_network.pb.cc:754-771 | The object becomes the merge of both values |
| MessageObjects.LinkMsg.constructor | eRPC/social_network.pb.cc:1346-1355 | A new Url is empty |
| MessageObjects.LinkMsg.ByteSize | eRPC/social_network.pb.cc:1484-1515 | Computes and caches the size |
| MessageObjects.LinkMsg.Serialize | eRPC/social_network.pb.cc:1450-1482 | Writes exactly the encoding |
| MessageObjects.LinkMsg.Take | eRPC/social_network.pb.cc:1405-1440 | One turn of the loop is one application of the record: known fields set, unknown ones kept |
| MessageObjects.LinkMsg.ParseFrom | eRPC/social_network.pb.cc:1399-1448 | The loop ends as the specified parse does |
| MessageObjects.LinkMsg.MergeFrom | eRPC/social_network.pb.cc:1523-1539 | The object becomes the merge of both values |
| RequestObject.ReadPacked | eRPC/social_network.pb.cc:3327-3329 | The packed loop reads exactly the specified numbers or fails |
| RequestObject.ReadReqMsg.constructor | eRPC/social_network.pb.cc:3281-3287 | A new request is empty |
| RequestObject.ReadReqMsg.ByteSize | eRPC/social_network.pb.cc:3398-3433 | Computes the size and fills the packed-size cache |
| RequestObject.ReadReqMsg.WritePostIds | eRPC/social_network.pb.cc:3376-3382 | With the cache filled, writes tag, cached length and ids exactly as encoded |
| RequestObject.ReadReqMsg.Serialize | eRPC/social_network.pb.cc:3369-3396 | With the cache filled since the last change, writes exactly the encoding |
| RequestObject.ReadReqMsg.Take | eRPC/social_network.pb.cc:3324-3360 | Packed, unpacked and type records are applied as specified, others kept |
| RequestObject.ReadReqMsg.ParseFrom | eRPC/social_network.pb.cc:3318-3367 | The loop ends as the specified parse does |
| RequestObject.ReadReqMsg.MergeFrom | eRPC/social_network.pb.cc:3441-3452 | The object becomes the merge of both values |
| PostObject.SizeProfiles | eRPC/social_network.pb.cc:2369-2381 | Sums the sizes of a repeated field and caches each |
| PostObject.SizeLinks | eRPC/social_network.pb.cc:2383-2388 | The same for urls |
| PostObject.WriteProfile | eRPC/social_network.pb.cc:2292-2298 | Writes tag, cached size and message exactly as encoded |
| PostObject.WriteProfiles | eRPC/social_network.pb.cc:2316-2330 | The loop writes the repeated field exactly as encoded |
| PostObject.WriteLinks | eRPC/social_network.pb.cc:2332-2338 | The same for urls |
| PostMessage.PostMsg.constructor | eRPC/social_network.pb.cc:2094-2103 | A new Post is empty |
| PostMessage.PostMsg.ByteSize | eRPC/social_network.pb.cc:2361-2434 | Computes the size, caches it in every sub-message, and changes no field |
| PostMessage.PostMsg.Serialize | eRPC/social_network.pb.cc:2280-2359 | With the sizes cached, writes exactly the encoding, PostSize bytes, and leaves the rest of the buffer |
| PostMessage.PostMsg.TakeNumber | eRPC/social_network.pb.cc:2163-2255 | Number records are applied as specified, presence collected locally, unknown ones kept |
| PostMessage.PostMsg.TakeCreator | eRPC/social_network.pb.cc:2172-2179 | A creator record is read into the creator already there, or a new one |
| PostMessage.PostMsg.TakeText | eRPC/social_network.pb.cc:2189-2198 | Text is taken exactly if valid |
| PostMessage.PostMsg.TakeMention | eRPC/social_network.pb.cc:2200-2211 | A mention record appends one parsed message |
| PostMessage.PostMsg.TakeMedia | eRPC/social_network.pb.cc:2213-2224 | A media record appends one parsed message |
| PostMessage.PostMsg.TakeUrl | eRPC/social_network.pb.cc:2226-2237 | A url record appends one parsed message |
| PostMessage.PostMsg.TakeUnknown | eRPC/social_network.pb.cc:2259-2269 | A record the type does not know is kept |
| PostMessage.PostMsg.Take | eRPC/social_network.pb.cc:2162-2270 | One turn of the switch is one application of the record |
| PostMessage.PostMsg.Turn | eRPC/social_network.pb.cc:2159-2270 | One turn of the loop reads a record and takes it, or the parse has failed |
| PostMessage.PostMsg.ParseFrom | eRPC/social_network.pb.cc:2156-2278 | The loop ends as the specified parse does, on top of what the message held |
| PostMessage.PostMsg.MergeFrom | eRPC/social_network.pb.cc:2442-2474 | The object becomes the merge, with copies of the other's repeated elements |
| CodeHash.HashOf | eRPC-LRPC/lib/backend_ubsm.c:15-26 | The loop computes the FNV hash |
| CodeHash.OneByteChangesHash | eRPC-LRPC/lib/backend_ubsm.c:15-26 | Code with one byte changed never has the same hash |
| ProcedureTable.SlotsAreApart | eRPC-LRPC/lib/backend_ubsm.c:28-33 | Metadata, data slots and code slots of different procedures do not overlap |
| ProcedureTable.SharedRegion.Check | eRPC-LRPC/lib/backend_ubsm.c:155-199 | The checks of the loop body accept exactly the acceptable services |
| ProcedureTable.SharedRegion.Place | eRPC-LRPC/lib/backend_ubsm.c:186-209 | Writes exactly the descriptor and, for published code, its bytes and hash |
| ProcedureTable.SharedRegion.Publish | eRPC-LRPC/lib/backend_ubsm.c:139-218 | Succeeds exactly for acceptable tables and then holds all descriptors and code; a table rejected after the metadata was touched makes every lookup answer -EAGAIN; otherwise nothing changes |
| ProcedureTable.SharedRegion.LookUp | eRPC-LRPC/lib/backend_ubsm.c:278-308 | The loop answers exactly as specified, errors in source order |
| ProcedureTable.SharedRegion.Localize | eRPC-LRPC/lib/backend_ubsm.c:310-357 | Copies validated code whose hash matches, or fails as specified |
| ProcedureTable.LookupFindsPublished | eRPC-LRPC/lib/backend_ubsm.c:236-308 | In a published table every id and epoch gets the right answer: the descriptor of that service, -ESTALE or -ENOENT |
| ProcedureTable.PublishedCodeComesBack | eRPC-LRPC/lib/backend_ubsm.c:310-357 | Looking up and localizing any published procedure yields exactly its bytes, the hash passes, and the entry lies inside the mapping |
| ProcedureTable.DamagedCodeIsRefused | eRPC-LRPC/lib/backend_ubsm.c:310-357 | Published code of which one byte has been damaged is refused with EBADMSG |
| ProcedureTable.FoundIsInside | eRPC-LRPC/lib/backend_ubsm.c:278-308 | Whatever the metadata says, a procedure that is found has the id and epoch asked for and its data and code inside the region |
| ProcedureTable.LocalizedIsThere | eRPC-LRPC/lib/backend_ubsm.c:310-357 | Whatever descriptor is given, code that is copied lies in the region, has the hash it should have and contains its entry point |
| CpuBlocks.Select | eRPC-LRPC-UB/scripts/prepare-social.py:41-57 | Returns count disjoint usable three-CPU windows, or no family of that many exists |
| CpuBlocks.CoveredFamilyIsSmall | eRPC-LRPC-UB/scripts/prepare-social.py:48-56 | A family whose windows are each met by a chosen one is no larger than the choice |
| CpuBlocks.ChosenIsFamily | eRPC-LRPC-UB/scripts/prepare-social.py:48-56 | The returned windows are such a family |
| Planner.CheckBlocks | eRPC-LRPC-UB/scripts/check-social-cpus.py:67-79 | The checker's nested loops accept exactly the placements whose CPUs exist, are allowed and all differ |
| Planner.ServicesFoundIff | eRPC-LRPC-UB/scripts/check-social-cpus.py:21-41 | On a generated configuration services_for returns the expected services exactly if the input names all five |
| Planner.GeneratedPassesIff | eRPC-LRPC-UB/scripts/check-social-cpus.py:21-79 | A generated configuration passes services_for and check on its own host, both sides and modes, if and only if the input names the five services |
| Planner.SideEndpoints | eRPC-LRPC-UB/scripts/check-social-cpus.py:82-104 | The endpoints of a side are found exactly if a lone client has an id, and are all on its own host |
| Planner.PreflightIff | eRPC-LRPC-UB/scripts/check-social-cpus.py:207-228 | The preflight up to the probing of ports accepts a generated configuration on its own host if and only if the input names the five services and, on A with one client, the client section carries an id |
| Planner.LoneClientIsRefused | eRPC-LRPC-UB/scripts/check-social-cpus.py:91-95 | A topology and a complete input that is planned, audited, good on roles and CPUs, and refused on A |
| Planner.MissingServiceSlipsThrough | eRPC-LRPC-UB/scripts/prepare-social.py:60-154 | A topology and an input that `prepare` plans and audits and that `services_for` refuses on either side |
| Planner.Audit | eRPC-LRPC-UB/scripts/prepare-social.py:134-153 | The collision loops accept exactly if ids, their +20 partners and addresses are pairwise different and service ids in range |
| Planner.Blocks | eRPC-LRPC-UB/scripts/prepare-social.py:41-57 | Finds the blocks exactly if a large enough family exists |
| Planner.ChoosePlan | eRPC-LRPC-UB/scripts/prepare-social.py:60-80 | Finds blocks for every role of the request exactly if the request is allowed and both nodes have enough disjoint blocks |
| Planner.AuditPlan | eRPC-LRPC-UB/scripts/prepare-social.py:82-154 | Accepts exactly the plans whose ports stay in range and whose ids and addresses do not collide |
| PlannerAudit.RegisteredNumbers | eRPC-LRPC-UB/scripts/prepare-social.py:84-123 | Ports, identifiers and blocks of registered clients and nginx instances |
| PlannerAudit.PortsExist | eRPC-LRPC-UB/scripts/prepare-social.py:86-118 | Every endpoint of a plan that is let through has a port from 1 to 65535 |
| PlannerAudit.OrdinaryInputIsAudited | eRPC-LRPC-UB/scripts/prepare-social.py:134-153 | An input of up to ten services, numbered from zero with ports of their own, passes the audit with any number of clients and instances |
| PlannerAudit.ServicesForIff | eRPC-LRPC-UB/scripts/check-social-cpus.py:21-41 | On any configuration services_for succeeds if and only if one workload is chosen, the hosts differ, every role is on its side and the registered clients are in order |
| PlannerAudit.FeasibleMeans | eRPC-LRPC-UB/scripts/prepare-social.py:64-72 | What can be planned has two different hosts and allowed numbers of samples, clients and instances |
| Planner.Prepare | eRPC-LRPC-UB/scripts/prepare-social.py:60-154 | Succeeds exactly if the request is allowed, both nodes have enough disjoint blocks and the audit passes; what it returns passes roles and CPUs on each host and in each mode if and only if the input names the five services, and the whole preflight if moreover a lone client has an id |
| PointerChain.SwapKeepsPermutation | eRPC-LRPC/demo/bar_latency.c:110-115 | A swap keeps a permutation |
| PointerChain.Shuffle | eRPC-LRPC/demo/bar_latency.c:108-115 | For every random stream the order is a permutation of the lines |
| PointerChain.Link | eRPC-LRPC/demo/bar_latency.c:117-122 | Each line links to the next of the order, the last to the first |
| PointerChain.OneSingleCycle | eRPC-LRPC/demo/bar_latency.c:117-126 | The links form one cycle through all lines |
| PointerChain.Walk | eRPC-LRPC/demo/bar_latency.c:124-126 | The first walk reads each line exactly once, in order, and ends where it began |
| PointerChain.Probe | eRPC-LRPC/demo/bar_latency.c:108-126 | All of it together, for every number of lines and every random stream |
| HelloPayload.LoadBack | eRPC/hello_world_ub/payload.h:14-44 | The bytes of a word read back as the word |
| HelloPayload.FillRequest | eRPC/hello_world_ub/payload.h:31-36 | The loop writes exactly the request |
| HelloPayload.IdentityComesBack | eRPC/hello_world_ub/payload.h:46-50 | The server recovers the identity a request was filled with |
| HelloPayload.MakeResponse | eRPC/hello_world_ub/payload.h:52-66 | Masks every byte, reports valid exactly for a request of the recovered identity, and then holds its response |
| HelloPayload.FilledRequestIsAnswered | eRPC/hello_world_ub/payload.h:31-78 | A filled request is found valid, its identity recovered, and the response made is the one its sender accepts |
| HelloPayload.ValidateResponse | eRPC/hello_world_ub/payload.h:68-78 | Accepts exactly the response of the identity |
| HelloPayload.ResponseNamesItsRequest | eRPC/hello_world_ub/payload.h:52-78 | A response is accepted for one identity only |
| HelloPayload.EchoIsNoResponse | eRPC/hello_world_ub/payload.h:52-78 | A request that is merely sent back is not taken for a response |
| HelloPayload.FoldedBits | eRPC/hello_world_ub/payload.h:27-28 | Bit by bit, a pattern byte is the mixed word folded over itself at distances 11 and 23 |
| Bits.XorCancels | eRPC/hello_world_ub/payload.h:63 | The response mask loses nothing |
| RequestWindow.WindowHolds | eRPC/hello_world_ub/multi_client.cc:48-113 | In flight is sent less completed, never more than there are slots |
| RequestWindow.EachExactlyOnce | eRPC/hello_world_ub/multi_client.cc:48-113 | No id completes twice, and a finished run has completed each |
| RequestWindow.HonestRunAddsUp | eRPC/hello_world_ub/common.h:77-81 | With right responses a finished run has no error, and the expected checksum if and only if the 64-bit product it is halved from wraps an even number of times |
| RequestWindow.ServedIsGood | eRPC/hello_world_ub/payload.h:31-78 | A server that makes its responses as it should answers every filled request rightly |
| RequestWindow.SmallExpected | eRPC/hello_world_ub/common.h:77-81 | Up to 2^32 requests the expected checksum is the sum of the ids |
| RequestWindow.SmallRunsAreExact | eRPC/hello_world_ub/common.h:77-81 | Up to 2^32 requests the halving is exact |
| RequestWindow.LargeRunDisagrees | eRPC/hello_world_ub/common.h:77-81 | At 2^32 + 1 requests it is not |
| RequestWindow.Client.constructor | eRPC/hello_world_ub/multi_client.cc:48-54 | All slots free, all counters zero |
| RequestWindow.Client.FindFree | eRPC/hello_world_ub/multi_client.cc:59-65 | The first free slot, or all are in use |
| RequestWindow.Client.Send | eRPC/hello_world_ub/multi_client.cc:67-78 | Fills the next request, puts it into the free slot and keeps the books balanced |
| RequestWindow.Client.SendAll | eRPC/hello_world_ub/multi_client.cc:57-79 | Fills the window or sends everything |
| RequestWindow.Client.EventLoop | eRPC/hello_world_ub/multi_client.cc:81 | Exactly the given requests in flight become done with their responses, and the books stay balanced |
| RequestWindow.Client.Judge | eRPC/hello_world_ub/multi_client.cc:85-96 | The verdict is good exactly for the right response |
| RequestWindow.Client.Reap | eRPC/hello_world_ub/multi_client.cc:83-110 | One answered slot is judged, its id logged as completed, and only that slot freed |
| RequestWindow.Client.ReapAll | eRPC/hello_world_ub/multi_client.cc:83-110 | Frees exactly the answered slots, all books kept |
| RequestWindow.Client.Turn | eRPC/hello_world_ub/multi_client.cc:57-110 | A turn keeps the books; one that answers every slot completes something |
| RequestWindow.Client.ServedRunAddsUp | eRPC/hello_world_ub/multi_client.cc:48-113 | End to end: filled, answered, judged and counted, a finished run has no error and, up to 2^32 requests, the sum of the ids as checksum |
| RequestWindow.Client.Run | eRPC/hello_world_ub/multi_client.cc:48-113 | For any completion order: the window holds and no id completes twice; a finished run has completed each id once; with a server that answers as it should there is no error and, up to 2^32 requests, the checksum is the sum of the ids; with right responses in general the expected checksum comes out if and only if its halving is exact; it finishes if every turn answers every slot |
| Heartbeat.RunKeepsPending | eRPC/src/heartbeat_mgr.h:69-81 | In every state of every run each tracked remote has a send and a check event queued |
| Heartbeat.TrackingBegan | eRPC/src/heartbeat_mgr.h:84-100 | A tracked remote's recorded time is the time its tracking began; no heartbeat changes it |
| Heartbeat.FailureIsLate | eRPC/src/heartbeat_mgr.h:150-163 | A failure is reported only after more than the timeout since tracking began, and ends the tracking |
| Heartbeat.OneReportPerPeriod | eRPC/src/heartbeat_mgr.h:150-163 | Between two reports of a remote its tracking began anew |
| Heartbeat.CheckReportsIff | eRPC/src/heartbeat_mgr.h:150-163 | A check of a tracked remote reports it if and only if more than the timeout has passed since tracking began, whatever heartbeats came |
| HeartbeatLimits.LiveRemoteIsReported | eRPC/src/heartbeat_mgr.h:84-100 | A run in which a remote is reported in the instant a heartbeat of it was received |
| Heartbeat.HandleMakesProgress | eRPC/src/heartbeat_mgr.h:137-165 | With a timeout of at least ten cycles each handled event leaves one fewer due |
| HeartbeatLimits.ShortTimeoutStalls | eRPC/src/heartbeat_mgr.h:212-222 | With a timeout below ten cycles a reachable state is its own successor |
| HeartbeatLimits.EveryCallEndsIff | eRPC/src/heartbeat_mgr.h:107-167 | With the clock standing still during the call, every call is sure to end, from every state and at every time, if and only if the timeout is at least ten cycles |
| HeartbeatClock.MovingClockBounds | eRPC/src/heartbeat_mgr.h:107-167 | With a timeout of at least ten cycles and a clock that never goes back, a bound on the events any call handles from a state whose tracked remotes all have a send and a check to come |
| HeartbeatClock.CallsEndAfterAllRunsIff | eRPC/src/heartbeat_mgr.h:107-167 | A call is sure to end, after every run and under every clock that never goes back, if and only if the timeout is at least ten cycles |
| HeartbeatLimits.CallHandlesAllDueIff | eRPC/src/heartbeat_mgr.h:107-167 | With a timeout of at least ten cycles and the clock standing still during the call, a call handles everything due, however equal times are ordered, if and only if before it no due event belongs to an untracked remote and no late remote has a due check with another due event of its own at the same time or later |
| HeartbeatLimits.FailureLeavesOrphan | eRPC/src/heartbeat_mgr.h:150-163 | After every report the remote is untracked and its send event still queued |
| HeartbeatLimits.OrphanCapsQueue | eRPC/src/heartbeat_mgr.h:122-130 | In every run, from an orphaned event of some time until its remote is added again, only events of at most that time are handled |
| HeartbeatLimits.BlockedIsReachable | eRPC/src/heartbeat_mgr.h:122-130 | A run after which nothing can be handled at any time though a tracked remote has events queued |
| HeartbeatLimits.BlockedQueueStandsStill | eRPC/src/heartbeat_mgr.h:122-130 | With an untracked remote's event least, nothing is handled until that remote is added again |
| HeartbeatLimits.ReAddingUnblocks | eRPC/src/heartbeat_mgr.h:69-81 | From the end of every run, adding the remotes that are in the way and handling what is on top leads to nothing being due |
| Heartbeat.Manager.constructor | eRPC/src/heartbeat_mgr.h:56-66 | Nothing queued, nothing tracked |
| Heartbeat.Manager.Add | eRPC/src/heartbeat_mgr.h:69-81 | Tracks the remote without overwriting and queues both events |
| Heartbeat.Manager.Receive | eRPC/src/heartbeat_mgr.h:84-100 | An untracked sender is ignored; a tracked one's time is not overwritten |
| Heartbeat.Manager.DoOne | eRPC/src/heartbeat_mgr.h:107-167 | With a clock read once per turn: handles due events one after the other, reports exactly the failures on the way, and stops where it may or when its turns are used up; it does stop within any bound on the events calls handle, such as the one for clocks that never go back, and within the events then due if the clock advances by less than the distance of two heartbeats |

## Left out

- Kernel user copies: a failing copy to or from user memory (-EFAULT) is not a step; publishing metadata is one step and sealing it another.
- INFO ioctl, PCI probe, PAT and MTRR set-up, remap_pfn_range and cache modes: hardware and kernel services.
- WAIT_CALL and RETURN from a task other than the registered shadow: the steps are issued by the bound, registered shadow.
- The shadow's serve loops and `lrpc_invoke` beyond the frame they write: easy wrappers around the ioctls.
- PoolTheorems.ConnectionSeesItsContract: takes the agreement of table addresses with physical pages as a hypothesis, which the client checks through the SDK.
- Pool initialization, images, contexts and heap contents: constant pages of the model.
- The single-client (non-pool) publication path: the pool path with one slot and weaker guards.
- PoolSafety.CommitSucceeds: the kernel's checks of header, manifest, images, contexts and heap are not part of the step, where a client may give up for any reason; `CommitVerdict` says how they come out.
- Memory ordering: release/acquire pairs are taken as one global order of loads and stores.
- 64-bit wrap of `b_initializations` and of nonces: the count is unbounded and nonces are fresh by assumption.
- The in-flight flag of invoke and the mapped-call ABI: one compare-and-swap around a foreign call.
- Parameter checks of names, sizes and providers in region open: no state changes before they pass.
- Reopening a region that still holds something: the caller's duty, as the structure is cleared unread.
- MessageObjects.ProfileMsg.ParseFrom: a message that holds a group (wire types 3 and 4) is refused, where the library would keep a well-formed unknown group; none of the message types has a group of its own.
- MessageObjects.LinkMsg.ParseFrom: groups are refused in the same way.
- RequestObject.ReadReqMsg.ParseFrom: groups are refused in the same way.
- PostMessage.PostMsg.ParseFrom: groups are refused in the same way.
- The inner loop that reads consecutive repeated sub-messages without returning to the switch: one turn of the switch each, with the same result.
- Messages longer than INT_MAX less 16 bytes: outside what the parser accepts.
- Arena allocation, swap, reflection and the remaining generated messages: boilerplate with no new property.
- Localize: memory calls are parameters; instruction-cache maintenance is not modelled.
- Probing live sockets and the ephemeral port range in the preflight, and the printing after `prepare`: host state and output.
- A slot reserved and given back before its client has seen it: no effect on what the protocol sees.
- Text syntax of CPU lists, hosts and ports, database settings and the default (no topology) core layout of the planner: parsing and copying.
- The xorshift generator of the probe: the shuffle is proved for every stream.
- Latency sums of the request loop and buffer allocation: no effect on the result proved.
- RequestWindow.Client.Run: takes the turns of the event loop as given and may end unfinished when they run out and the network has not answered.
- Heartbeat.Manager.DoOne: one reading of the clock serves a whole turn of the loop, where the source reads it up to three times; time stamps stay below 2^64.
- UDP sending, printing and the mutex of the heartbeat manager: foreign effects.
