# A verified model of the durable-object runtime

The runtime keeps one JavaScript object per actor alive on some host, runs one request
at a time on it, and makes its state durable as immutable snapshots that a placement
row points at. Many hosts, lost replies, transfers of ownership and old but still
valid invocation targets are normal. This project models that machinery in Dafny and
proves what it guarantees. `dafny verify dfyconfig.toml` checks the whole project.

## What is modelled

**The commit protocol** (`Placement`, `Leases`, `Protocol*`). One storage key: the
placement row with its claim and commit statements, the create-only snapshot store,
the lease table on the store clock, control-plane calls in flight, and any number of
host processes, each with at most one cached state and one admitted call. Every
database statement, every message and every await is its own step. A call, an upload
or a capability keeps existing after the host gave up on it, so lost replies, late
statements and stale capabilities are ordinary interleavings. Claims may name any
expected row, so every behaviour of the routing loop is included. Customer code is a
function from state and request to result and next state; a completed reply stands for
a method's result and for a socket event's effects alike.

- `Protocol`: the state and the steps. `ProtocolInvariant`, `ProtocolSteps`: what every
  reachable state satisfies, with no hypothesis at all.
- `ProtocolSafety`: history, tickets, fencing, acknowledgements, caches, retries and
  replies over every run.
- `ProtocolControl`: over every run, which calls the control plane lets through its lease
  check, which get a ticket or a confirmation, and which claims acquire the object.
- `ProtocolAgreement`, `ProtocolReplies`: exactly which steps let a call run on an
  instance that is not the state its host holds, or beside a command that a cancelled
  call left at the worker; without them the durable history is one sequential execution
  of the requests that hosts took up, and completed replies tell the truth about the
  caller's own request.
- `ProtocolFresh`: processes that serve one epoch, with their own host id and no
  cancelled call, are free of such steps, and their caches are up to date.
- `ProtocolWitness`: an executed call can always be completed by the owner of the row;
  and three concrete runs that fork the history: by re-acquisition at a later epoch, by
  a socket event cancelled after it ran, and by one cancelled while it runs, whose reply
  then answers the next request.

**One call as the code runs it** (`ActorHost`). Each call of the protocol is such a call
with true answers from the stores (`HostCalls`). Conversely each such call happens in the
protocol if the stores, the control plane and the executor can give its answers as they
stand when the call begins, with nobody else acting until it ends; the same is said of a
call that has got as far as resolving, running or committing in any reachable state,
whatever others did in the meantime (`HostRuns`). That includes a lost commit reply that
the read back confirms, an upload under a held ticket by a host that is no longer the
owner, and an answer of a command that a cancelled call left behind. **Executor
residency** (`Executor`): believed residents, the supervisor's workers, the instance; in
clean runs its exchanges are the protocol's execution steps (`ExecutorCalls`). **Host concurrency**
(`Drain`, `Gates`, `LeaseMaintenance`). **Self-contained cores** (`JsonLength`,
`SocketEffects`, `SnapshotNames`, `ProviderPool`, `ProviderCommands`).

## Where the code does not do what one might expect

The model follows the code. Each point has a lemma with a concrete input or run, and a
lemma that says exactly when the expected property does hold.

- A cached state of another epoch is dropped without evicting the instance
  (src/host/actor_host.rs:371-377), a socket event whose caller goes away loses its cached
  state the same way (src/grpc/service.rs:71-77), and an existing instance wins over
  supplied state (npm/host/worker/runtime.ts:78). So a process that owns an object at
  epochs 1 and 3 can commit a version that does not extend the one below it
  (`ReacquisitionForksHistory`), and so can one process within one epoch after a cancelled
  event (`CancellationForksHistory`).
- A command whose call is cancelled goes on at the worker, which handles messages
  concurrently (npm/host/worker/entrypoint.ts:18-30) and has one slot for the caller to
  answer (npm/host/worker/supervisor.ts:226-230). What it returns can therefore answer
  the next request, result and state (`CancellationSwapsReplies`).
- The exact condition for both, step by step, is `AgreementIffClean`: a call that gets its
  state by loading it, or as that of a new object, must find no command under way and no
  instance in another state. Cancelling and failing to load are harmless by themselves,
  and eviction puts the executor in step again. `SteadyRunsAreClean` gives the plain
  sufficient condition.
- A connect or message whose caller goes away while customer code runs is no longer
  counted (src/host/actor_host.rs:1030-1033), so `drain` can return Ok while `onMessage`
  is still running (`AbandonedMessage`). When the reader of executor replies ends, every
  command that is out fails (src/actor/executor_connection.rs:538-569), and `drain` can
  return Ok while a method is still running (`AbandonedMethod`). `DrainBarrier` says that
  customer code runs after the drain exactly if its invocation was given up like that,
  and `BarrierIff` that the barrier holds in all runs exactly if invocations look again
  after admission, no such event is dropped at the executor and the connection is kept.
- The comment at src/host/lease_maintenance.rs:184-187 says that the local lease window
  always lapses at or before the stamped expiry. With sub-millisecond times it can lapse
  later, by less than two milliseconds (`LateRenewal`); it never does exactly if the
  request takes at least two milliseconds to be stamped
  (`LapsesFirstIffTwoMilliseconds`).
- The JSON length charges four bytes for a code unit from 0x0800 to 0xD7FF and skips the
  next one (npm/host/session.ts:307-309), so it can refuse a document that fits and pass
  one that does not (`MiscountedDocuments`). `DeviationIsExact` and `MeasureDeviates` say
  by how much each string and each document is off, and `JsonFitsWithinBytes` exactly
  which documents pass; a single string can come out right by cancellation, as 0x0800 followed
  by the letter A does, but a string and all its prefixes are measured exactly if and
  only if no such unit occurs (`ExactIffPlain`).
- The in-memory and the PostgreSQL placement stores differ on claims whose expected row
  has an old state head (`ClaimsDisagree`, `ClaimsAgree`) and from the BIGINT maximum on
  (`CommitOrderAgreesBelowMaximum`). The protocol uses the PostgreSQL form.
- Storage keys of different valid actors can be equal (`TwoActorsOneKey`). A key belongs
  to one actor key exactly if none of its components has a dot (`UniqueKeyIffDotFree`),
  and whoever shares it is another cut of the same text (`SharersAreCuts`). Snapshot names
  cannot be equal (`NameDeterminesCommit`).

## Model

| member | source | states |
|---|---|---|
| `Placement.LocalObjectPlacementStore.Claim` | src/placement.rs:74-126 | The answer and the new row of an in-memory claim, all error cases included; other keys untouched |
| `Placement.LocalObjectPlacementStore.CommitState` | src/placement.rs:128-156 | The answer and the new row of an in-memory commit, with its validation; other keys untouched |
| `Placement.PostgresAcquiresIff` | src/placement.rs:188-246 | In the row's fields, exactly when a PostgreSQL claim acquires: no row and none expected, or the expected owner, epoch and region are the row's; the head is unchanged and the epoch the next one |
| `Placement.LocalAcquiresIff` | src/placement.rs:74-126 | An in-memory claim acquires exactly if the whole expected row is the current one |
| `Placement.LocalCommittedIff` | src/placement.rs:128-156 | In the row's fields, an in-memory commit is confirmed exactly if it is the head already or the next one of the row's owner, and which row it leaves |
| `Placement.PostgresCommittedIff` | src/placement.rs:248-296 | The same of a PostgreSQL commit, with the live lease and the BIGINT limits |
| `Placement.ValidRegionIff` | src/placement.rs:356-368 | Regions are 1 to 64 lower-case letters, digits, dots, underscores and dashes |
| `Placement.IllFormedCommits` | src/placement.rs:325-348 | A commit for an invalid key or of an empty or overlong object name is refused |
| `Placement.CommitOrderAgreesBelowMaximum` | src/placement.rs:128-295 | On every row that PostgreSQL can hold, both stores answer a commit under a live lease alike exactly for expected versions below the BIGINT maximum and epochs up to it |
| `Placement.ReplayOrderAgreesBelowMaximum` | src/placement.rs:350-354 | No row both replays and matches a commit, so the order of the two tests does not matter, exactly for expected versions below the u64 maximum |
| `Placement.LostLeaseNeverAdvances` | src/placement.rs:254-295 | Without a live lease a commit never changes the row, and is confirmed exactly if it fits a BIGINT and is a replay |
| `Placement.ClaimsAgree` | src/placement.rs:74-246 | Exactly when the in-memory and the PostgreSQL claim give the same answer, the BIGINT limits included |
| `Placement.ClaimsDisagree` | src/placement.rs:100-230 | A head that moved since the read: PostgreSQL transfers, the in-memory store reports the current row |
| `Placement.RowsFollow` | src/placement.rs:74-156 | Over every run of claims and commits the row never disappears, the home region is fixed, an epoch determines its owner, a version its snapshot |
| `Placement.EpochsFence` | src/placement.rs:74-156 | Owner changes raise the epoch by exactly one and keep the head; a commit of another epoch changes nothing |
| `Placement.AnswersAreStored` | src/placement.rs:74-156 | At any point of a run an acquired row or confirmed head is what the in-memory store holds, and any other answer leaves the row as it was |
| `Leases.LocalHostLeaseStore.RegisterLease` | src/host_leases/local.rs:48-76 | Registration succeeds exactly if the duration is valid and no other session's lease runs, and stamps the store clock plus the duration |
| `Leases.LocalHostLeaseStore.UnregisterLease` | src/host_leases/local.rs:78-91 | Only the session's own lease is removed |
| `Leases.LocalHostLeaseStore.LeaseStatus` | src/host_leases/local.rs:96-102 | The stored lease, active exactly while the store clock is below its expiry |
| `Leases.LeaseLeavesOnlyBySurrender` | src/host_leases/postgres.rs:25-71 | In every run, a lease leaves a session only after it expired on the store clock or that session unregistered |
| `Leases.RunningLeaseIsUntouched` | src/host_leases/postgres.rs:25-71 | While the clock is below the stamped expiry and its holder does nothing, other sessions cannot change the row at all |
| `Leases.StaleUnregisterLeavesNoTrace` | src/host_leases/postgres.rs:61-71 | A late unregister of a stale session leaves the whole rest of the run as if it had not happened |
| `Leases.HolderKeepsRow` | src/host_leases/postgres.rs:25-71 | A session that only renews keeps its row until the store clock reaches the expiry of a renewal, whatever others try |
| `Leases.RegistrationAt` | src/host_leases/postgres.rs:25-59 | In any run, a session gets the lease, stamped with the store clock plus the duration, exactly if no other session has an unexpired one and the duration is valid; so an expired lease is taken over |
| `Leases.UnregistrationAt` | src/host_leases/postgres.rs:61-71 | In any run, unregistering removes the session's own lease, expired or not, and nothing else |
| `Leases.UnregisteredHostIsFree` | src/host_leases/postgres.rs:25-71 | After a session unregistered, the next one to ask gets the host |
| `ProtocolSteps.StepKeeps` | src/host/actor_host.rs:276-675 | Every step of every host, store and control plane keeps the protocol invariant |
| `ProtocolSteps.RunKeeps` | src/host/actor_host.rs:276-675 | Every reachable state satisfies it, whatever is lost, late, cancelled or transferred |
| `ProtocolSteps.AdvanceGrows` | src/placement.rs:254-282 | A matching commit extends a well-formed history by exactly its snapshot |
| `ProtocolSteps.ClaimGrows` | src/placement.rs:188-246 | A claim keeps the history and at most opens a new epoch |
| `ProtocolSteps.PromotedOk` | src/host/actor_host.rs:645-675 | A confirmed pending snapshot is the committed one of its version, so promoting it keeps the cache right |
| `ProtocolSteps.MadePutOk` | src/host/actor_host.rs:568-584 | What an executed call uploads is what its execution returned, on top of exactly the state its host held |
| `ProtocolSafety.UploadsAreFirst` | src/host/actor_host.rs:539-592 | Every upload goes to a name no upload has used: a ticket is used at most once, a name receives one content |
| `ProtocolSafety.StoredObjectIsOwn` | src/host/actor_host.rs:568-586 | An object reported written or already existing equals the snapshot in the call's hands: next version of the held state, with the state and result its own execution returned |
| `ProtocolSafety.RunOnlyAdds` | src/placement.rs:188-296 | Over any run no committed version, snapshot, upload or reply is replaced or taken back, the region is fixed, an epoch determines its owner |
| `ProtocolSafety.HeadAdvances` | src/placement.rs:254-282 | The head moves only by a conditional update of the current owner at the current epoch under an unexpired session lease, by one version, to a stored snapshot made by one execution of one request from the old head |
| `ProtocolSafety.EpochsFence` | src/placement.rs:188-296 | Ownership changes one epoch at a time with the head unchanged; a commit call of another epoch never changes the row |
| `ProtocolSafety.DurableHistory` | src/placement.rs:248-296 | Over every run each version is the single upload under its name, made by a host holding exactly the version below; no two versions share a name; a method never extends its own request; the row names the last version and its request |
| `ProtocolSafety.AttemptsAreBegins` | src/host/actor_host.rs:276-300 | The numbered attempts are exactly the calls that the run's hosts took up, with their requests, in order |
| `ProtocolSafety.CommitsAreCalls` | src/host/actor_host.rs:530-592 | Over every run each version was made by one call, for exactly the request it was taken up for, and no call made two versions |
| `ProtocolSafety.AnswerNamesTheHead` | src/placement.rs:254-295 | A commit call is confirmed only by a statement at which exactly its version, object and request are the head |
| `ProtocolSafety.ConfirmedPendingIsCommitted` | src/host/actor_host.rs:645-675 | A host acts on a confirmation only if its pending snapshot is the committed one of its version |
| `ProtocolSafety.CacheIsCommitted` | src/host/actor_host.rs:849-907 | In every reachable state a cached version, state, request and result, in the map or in a call's hands, are those of the committed snapshot, and a pending commit is a stored snapshot one version above |
| `ProtocolSafety.LoadedSnapshotsCheckOut` | src/host/actor_host.rs:877-896 | However old the capability, the two checks on the downloaded snapshot pass |
| `ProtocolSafety.RetryReplays` | src/host/actor_host.rs:301-319 | Retrying the method whose commit is pending: once confirmed it cannot run again and is answered with the stored result |
| `ProtocolSafety.RepliesAreDurable` | src/host/actor_host.rs:298-360 | A completed reply reports a state that is durable at the reported version; a failure other than outcome-unknown means the attempt committed nothing |
| `ProtocolSafety.InstancesAreReal` | npm/host/worker/runtime.ts:70-97 | Over every run, whatever was cancelled or wrongly answered, a resident instance is a state that customer code returned or that was committed |
| `ProtocolControl.PassedCallsHadALease` | src/control_plane/service.rs:854-863 | Over every run, a call that is being worked on or was answered had, at a moment after it was sent, an unexpired lease of its own host and session in the lease table |
| `ProtocolControl.UnleasedCallsGetNothing` | src/control_plane/service.rs:854-863 | A call whose session has no such lease as long as it is unread gets no ticket and no confirmation, however long the run goes on |
| `ProtocolControl.CheckIff` | src/control_plane/service.rs:854-863 | An unread call is checked exactly if the table has an unexpired lease of its host and session and its numbers fit; otherwise it is refused |
| `ProtocolControl.TicketIff` | src/control_plane/service.rs:657-684 | A checked request is granted a ticket, for the version after, exactly if the row has its host, epoch, version and region |
| `ProtocolControl.CommitIff` | src/placement.rs:254-282 | A checked commit moves the head, to exactly its object and request, if and only if the row is its host's at its epoch and version and the session's lease is unexpired |
| `ProtocolControl.ReadBackIff` | src/placement.rs:283-295 | A missed commit is confirmed exactly if it is the head already |
| `ProtocolControl.ClaimChanges` | src/placement.rs:188-246 | A claim does nothing unless it names the row's epoch, owner and region, and then at most opens the next epoch |
| `ProtocolControl.OneClaimPerEpoch` | src/placement.rs:188-246 | Over every run, of all claims that name one epoch at most one acquires the object |
| `ProtocolControl.LeftEpochsAreNotClaimed` | src/placement.rs:188-246 | Over every run, a claim that names an epoch already left changes nothing |
| `ProtocolControl.LeaseTableFollows` | src/host_leases/postgres.rs:25-71 | In every run the lease table is what its registrations and unregistrations make of an empty one on a monotone clock, so the laws of leases hold of the protocol's |
| `ProtocolAgreement.AgreementIffClean` | src/host/actor_host.rs:363-398 | A step keeps every executor in step with the state its host holds if and only if it is clean: a call that loads its state, or starts a new object, finds no command under way and no other instance |
| `ProtocolAgreement.RunsAgreeIffClean` | npm/host/worker/runtime.ts:70-97 | Executors are in step with their hosts all along a run if and only if every step of it is clean |
| `ProtocolAgreement.BegunAgrees` | src/host/actor_host.rs:371-386 | Taking up a call keeps agreement exactly if the state is cached, is still to be loaded, or is that of a new object with nothing at the executor |
| `ProtocolAgreement.RunAgrees` | npm/host/worker/supervisor.ts:155-177 | Whatever happens at the executor keeps agreement, the cancellation of a call included |
| `ProtocolAgreement.CancelledCommandGoesOn` | npm/host/worker/supervisor.ts:207-230 | A command whose call is cancelled while it runs goes on, and alone returns what customer code makes of the state its host had supplied |
| `ProtocolAgreement.CommandsReturnOnce` | npm/host/worker/supervisor.ts:207-240 | Each command left at a worker returns once: the one that returns is gone, and the waiting command it answers, or that is cancelled, joins the others; eviction ends them all |
| `ProtocolAgreement.FailedLoadsAreHarmless` | src/host/actor_host.rs:388-397 | A load that fails, whatever instance it leaves behind, keeps agreement |
| `ProtocolAgreement.LinearHistory` | src/host/actor_host.rs:363-592 | In every clean run each committed version is what customer code made of the version below and the very request its call was taken up for; a method never repeats the request below; no call made two versions |
| `ProtocolAgreement.HistoryIsSequential` | src/placement.rs:248-296 | So the head state is that of running exactly the committed calls' requests one after the other, in version order |
| `ProtocolReplies.RepliesTellTheTruth` | src/host/actor_host.rs:298-360 | In every clean run a completed reply answers its own call: customer code on the version below gives its result and the version that call committed, or on the version itself changes nothing; only a replayed method gets the result stored with the version of its request id |
| `ProtocolReplies.EveryVersionIsStored` | src/host/actor_host.rs:568-584 | Over every run each version stores what one execution returned: a method's result, null for a socket event |
| `ProtocolReplies.RetryIsToldItsResult` | src/host/actor_host.rs:311-319 | Over every run, a method answered by replay is told what the execution stored with its version returned, and that execution was of its own request id |
| `ProtocolFresh.SteadyRunsAreClean` | src/host/actor_host.rs:363-398 | Runs of single-epoch processes with their own host ids and no cancelled call are clean |
| `ProtocolFresh.CacheIsFresh` | src/host/actor_host.rs:363-414 | There, at the row's epoch, the database version is the cached one, or one ahead and names exactly the pending object |
| `ProtocolFresh.StartsAtTheRow` | src/host/actor_host.rs:379-397 | A process that starts from a capability of the row's epoch starts at the row's version |
| `ProtocolFresh.WinnerIsPending` | src/placement.rs:254-282 | A winning commit is that of its process's pending object at its cached version |
| `ProtocolWitness.ExecutedCallCanComplete` | src/host/actor_host.rs:530-592 | From any reachable state the owner under a live lease can carry an executed call to its reply, and the head becomes exactly its snapshot |
| `ProtocolWitness.Turn` | src/host/actor_host.rs:276-361 | A whole call of an owner without a cached state commits what customer code makes of the resident instance, or else of the head |
| `ProtocolWitness.ReacquisitionForksHistory` | src/host/actor_host.rs:371-377 | A reachable state whose version 3 is its request's work on version 1 and not on version 2 |
| `ProtocolWitness.CancellationForksHistory` | src/grpc/service.rs:71-77 | A reachable state of one host in one epoch whose version 2 contains the effect of a cancelled event that was never committed |
| `ProtocolWitness.CancellationSwapsReplies` | npm/host/worker/supervisor.ts:220-234 | A reachable state of one host in one epoch in which a request was told the result of a cancelled event, and its version is that event's |
| `ActorHost.Host.TakeOrLoadState` | src/host/actor_host.rs:363-406 | The entry leaves the map; the cached state is used exactly for its own epoch, else a new or loaded one, else an error |
| `ActorHost.Host.FinishPendingCommit` | src/host/actor_host.rs:645-675 | A pending commit is asked for once and promoted exactly if the answered version is its own |
| `ActorHost.Host.PublishResult` | src/host/actor_host.rs:530-592 | Succeeds exactly with a right ticket, a valid snapshot, a stored object and an accepted commit; otherwise version and state stay and the snapshot is pending exactly if it was stored; and the exact messages in their order |
| `ActorHost.Host.CallSettled` | src/host/actor_host.rs:311-360 | With the state in hand, how a call ends, what it puts back and exactly what it sends |
| `ActorHost.Host.Call` | src/host/actor_host.rs:276-361 | The whole call concludes as the course of events says and sends exactly the messages of that course; other actors untouched |
| `ActorHost.OneRunAtMost` | src/host/actor_host.rs:301-325 | Customer code is run at most once, on the settled state, and exactly in calls that neither replay nor wait for a pending commit |
| `ActorHost.OneUploadAtMost` | src/host/actor_host.rs:539-584 | Exactly one upload, of the next snapshot under the chosen ticket, if and only if the call publishes with a right ticket and a valid snapshot |
| `ActorHost.CommitsNameTheUpload` | src/host/actor_host.rs:579-592 | Every commit asked for, but that of a pending one, comes right after the upload of the object it names, and a stored upload is followed by one |
| `ActorHost.TicketAskedIff` | src/host/actor_host.rs:543-563 | A ticket is asked for exactly by a publication whose held ticket is missing, of another version or about to expire |
| `ActorHost.PublishesIff` | src/host/actor_host.rs:538-592 | Which ticket a publication uses, and that it goes through exactly if ticket, encoding, upload and commit answer are right for the next version |
| `ActorHost.EvictedIff` | src/host/actor_host.rs:321-345 | The instance is given up, as the last message, exactly by a method whose execution failed and by a call whose publication did not go through |
| `ActorHost.TakenIff` | src/host/actor_host.rs:363-406 | Which state a call starts from: the cached one of its epoch, a new one for version 0, or the download of exactly the version and no later epoch; else an error |
| `ActorHost.SettledIff` | src/host/actor_host.rs:645-675 | A pending commit is settled exactly by an answer for its own version, and then its snapshot is the state |
| `ActorHost.TakenAsInTheProtocol` | src/host/actor_host.rs:363-398 | The imperative call and the protocol's step start from the same cached state, in every case of the cache, the capability and the download |
| `ActorHost.CoursesEndOneWay` | src/host/actor_host.rs:276-361 | A course of events determines the ending and the cached state |
| `ActorHost.CallLeavesCommittedState` | src/host/actor_host.rs:276-361 | With truthful stores, whatever fails, the state put back is committed with at most a stored next one pending, and an answered call is durable |
| `HostCalls.RunFollows` | src/host/actor_host.rs:276-361 | At every point of every run a busy process is where the code is after what it has seen of the world, and what it has seen is true of the stores |
| `HostCalls.EveryCallIsAHostCall` | src/host/actor_host.rs:276-361 | Over every run, each answered call has the reply and leaves the cached state of the imperative call on the course of events it saw, and the stores told it the truth |
| `HostCalls.RetriesNeverRun` | src/host/actor_host.rs:301-319 | Over every run, a call that starts with its own method's commit pending never runs it and uploads nothing |
| `HostCalls.RetriesGetTheStoredResult` | src/host/actor_host.rs:301-319 | And it is answered with an unknown outcome or with the result of the pending snapshot, nothing else |
| `HostRuns.EveryHostCallCanHappen` | src/host/actor_host.rs:276-361 | Every course of events that the stores, the control plane and the executor can give an idle process as they stand in a reachable state happens in the protocol, with the reply and the cached state of the imperative call; ownership is asked only for a new ticket or a winning commit, and a commit that went through before is confirmed by the read back |
| `HostRuns.FromResolving` | src/host/actor_host.rs:301-319 | The same of a call that waits for its pending commit in any reachable state |
| `HostRuns.FromReady` | src/host/actor_host.rs:311-360 | The same of a call with its state in hand in any reachable state; the executor may evict, finish cancelled commands and answer with one of them |
| `HostRuns.FromCommitting` | src/host/actor_host.rs:586-592 | The same of a call whose upload is stored in any reachable state, however the upload's host stands to the row by then |
| `HostRuns.ReadBackSteps` | src/placement.rs:283-295 | A checked commit that is already the head is confirmed by the separate read after its update misses, and the row stays |
| `HostRuns.StoreWithHeld` | src/host/actor_host.rs:539-586 | With a held ticket the upload is stored and its commit asked for, with neither ownership nor a lease |
| `HostRuns.RetryCanSucceed` | src/host/actor_host.rs:301-319 | A method whose commit is pending can be retried to an answer with the stored result, whether that commit never arrived or went through and its reply was lost |
| `Executor.ActorWorkerSupervisor.MakeRoomForActor` | npm/host/worker/supervisor.ts:114-121 | Room is made exactly if the map is not full or some worker is idle, by dropping the idle worker that completed longest ago |
| `Executor.ActorWorkerSupervisor.Execute` | npm/host/worker/supervisor.ts:81-102 | One command on the map of at most 32 workers: it fails unrun exactly if the map is full of busy workers, and no more than one idle other is dropped for it |
| `Executor.ActorWorkerSupervisor.ExecuteResident` | npm/host/worker/supervisor.ts:155-177 | State is required exactly of a command without it for an actor without an instance, and then nothing changes; otherwise customer code runs on the instance, or else on the supplied state, and a failed worker is dropped |
| `Executor.RequiresIff` | npm/host/worker/runtime.ts:70-83 | The first of these on the map of workers |
| `Executor.InstanceWins` | npm/host/worker/runtime.ts:78-82 | A resident instance wins over whatever state the command carries |
| `Executor.ActorWorkerSupervisor.RemoveIfIdle` | npm/host/worker/supervisor.ts:123-127 | The idle timer removes an actor only if it is idle |
| `Executor.ActorWorkerSupervisor.Evict` | npm/host/worker/supervisor.ts:104-112 | The actor's worker is gone, the others stay |
| `Executor.JsActorExecutor.Exchange` | src/actor/executor_connection.rs:471-508 | One command and its reply: written exactly if it fits and the connection holds, refused unsent if too large, an error if the connection is or gets lost, else an answer on the held state; run at most once |
| `Executor.JsActorExecutor.HandleCommand` | npm/host/worker/supervisor.ts:81-112 | A command that arrived: its answer on the held state; a reply too large to send back becomes a failure with the actor evicted, and no failed actor keeps an instance |
| `Executor.JsActorExecutor.ExchangeWithState` | src/actor/executor_connection.rs:420-469 | Exactly which commands are written, and that leaving state out changes nothing: a success is customer code on the supplied state, run at most once, and instances are again what hosts hold |
| `Executor.WrittenElides` | src/actor/executor_connection.rs:435-453 | State is left out exactly for believed residents, and a second command, with the state, is written exactly for a believed resident without an instance |
| `Executor.JsActorExecutor.Ask` | src/actor/executor_connection.rs:435-453 | At most two commands, the second with the state and only after an answer that none ran |
| `Executor.JsActorExecutor.Evict` | src/actor/executor_connection.rs:386-407 | The host no longer believes in the actor, and unless the connection is lost the supervisor has dropped it |
| `Executor.ServesWhatIsHeld` | npm/host/worker/runtime.ts:70-97 | When instances are what hosts hold, a command runs on the held state whether or not it carried it |
| `Executor.Serve` | src/actor/executor_connection.rs:420-469 | Over any sequence of exchanges, evictions, timeouts and lost connections of any actors, every success is that of an executor re-hydrated on each command, and every other reply is a refusal, the customer's error, a crash, an oversized reply or a connection that was lost |
| `ExecutorCalls.ExchangeInProtocol` | src/actor/executor_connection.rs:420-469 | For a process of a clean run about to run its request, an exchange with residency elision is the protocol's step for its reply and leaves the instances those of the protocol; if nothing stands in its way, each success that the protocol allows is the reply |
| `ExecutorCalls.ShownIsCoherent` | npm/host/worker/runtime.ts:70-97 | In clean runs of all actors of a host, every resident instance is the state held in its actor's protocol |
| `ExecutorCalls.ReplyIsAStep` | src/host/actor_host.rs:321-345 | In step with its executor, a process can take the step for any reply |
| `ExecutorCalls.EvictionIsShown` | src/actor/executor_connection.rs:386-407 | Eviction by the host is the protocol's eviction |
| `Drain.DrainBarrier` | src/host/actor_host.rs:757-795 | In any interleaving, once drain returned Ok no invocation but a disconnect gets past the second look, and customer code of a method, connect or message runs exactly if its invocation was given up while it ran; a method's only if the executor's connection was lost |
| `Drain.BarrierIff` | src/grpc/service.rs:71-77 | The barrier holds in all runs if and only if an admitted invocation looks at `accepting` again, no connect or message is dropped at the executor and the executor stays connected |
| `Drain.ArrivalIff` | src/host/actor_host.rs:776-795 | In every run an arriving invocation is taken up exactly if no drain has begun or it is a disconnect |
| `Drain.SecondLookIff` | src/host/actor_host.rs:284-296 | A counted invocation gets to the executor under the same condition, and otherwise ends uncounted |
| `Drain.DrainReturnsIff` | src/host/actor_host.rs:757-767 | Drain returns Ok exactly when it has begun and no invocation is counted |
| `Drain.AbandonedMethod` | src/actor/executor_connection.rs:538-569 | A run in which drain returns Ok while the customer code of a method is running whose command was out when the connection was lost |
| `Drain.AbandonedMessage` | src/host/actor_host.rs:1030-1033 | A run in which drain returns Ok while the customer code of a message is running |
| `Drain.LateArrival` | src/host/actor_host.rs:284-296 | Without the second look, a run in which a method reaches the executor after drain returned Ok |
| `Drain.StepKeeps` | src/host/actor_host.rs:809-820 | The counter equals the number of counted invocations at every step |
| `Gates.ActorExecutionLocks.Gate` | src/actor_state/actor.rs:54-72 | Purging and re-creating gates keeps every holder on its actor's one gate |
| `Gates.ActorExecutionLocks.Purge` | src/actor_state/actor.rs:54-60 | What stays in the map are the gates of the actors that have an invocation |
| `Gates.ActorExecutionLocks.AskPermit` | src/actor_state/actor.rs:40-46 | A permit is given exactly if fewer than 33 invocations of the actor are admitted |
| `Gates.ActorExecutionLocks.Lock` | src/actor_state/actor.rs:47-52 | The guard is given exactly if no invocation of the actor runs |
| `Gates.ActorExecutionLocks.Release` | src/actor_state/actor.rs:22-26 | Dropping a guard or a waiting future forgets just that invocation |
| `Gates.ActorExecutionLocks.GateIsItsActors` | src/actor_state/actor.rs:54-72 | A held gate's permits and mutex are those of all its actor's invocations |
| `Gates.RunsAreExclusive` | src/actor_state/actor.rs:40-72 | One permanent gate per actor: at most one guard and 33 admitted, in every run |
| `Gates.AdmittedIff` | src/actor_state/actor.rs:40-46 | In every run an invocation that asks is admitted exactly if at most 32 others of its actor are |
| `Gates.LooksAndDrops` | src/actor_state/actor.rs:54-72 | In every run a new invocation gets its actor's gate and a dropped one is forgotten |
| `Gates.GuardedIff` | src/actor_state/actor.rs:47-52 | In every run an admitted invocation gets the guard exactly if none of its actor runs |
| `Gates.DroppedGuardIsFree` | src/actor_state/actor.rs:22-52 | Dropping the guard lets a waiting invocation have it |
| `Gates.Interleave` | src/actor_state/actor.rs:40-72 | Any interleaving on the weak map gives what permanent gates give, at every point |
| `LeaseMaintenance.DeadlineBound` | src/host/lease_maintenance.rs:183-225 | For any clock offset and delay the adopted deadline is less than 1 ms beyond request start plus duration |
| `LeaseMaintenance.WholeDeadlineBound` | src/host/lease_maintenance.rs:183-225 | In whole milliseconds it is at most that, and no later than the store's expiry |
| `LeaseMaintenance.DeadlineMeetsExpiry` | src/host/lease_maintenance.rs:183-225 | It is less than 2 ms, less the time to the stamp, beyond the stamped expiry |
| `LeaseMaintenance.ConfirmedIff` | src/host/lease_maintenance.rs:188-225 | A renewal is confirmed exactly if its deadline is later than the arrival of its reply, and fits |
| `LeaseMaintenance.LapsesFirstIffTwoMilliseconds` | src/host/lease_maintenance.rs:183-225 | The local window always lapses first exactly if the stamp comes at least 2 ms after the first sample |
| `LeaseMaintenance.LateRenewal` | src/host/lease_maintenance.rs:184-187 | For every shorter delay, a renewal whose local deadline is the last to lapse |
| `LeaseMaintenance.ExpiryIsWhenTheRowLapses` | src/host_leases.rs:48-54 | The store sees the lease expired exactly from the modelled instant on |
| `LeaseMaintenance.OnlyAdoptionMovesTheDeadline` | src/host/lease_maintenance.rs:145-181 | Failed renewals never move the deadline |
| `LeaseMaintenance.NoAdoptionAfterTheDeadline` | src/host/lease_maintenance.rs:124-181 | Once the deadline in force has passed, renewal is over: the loop reports the lease lost unless told to stop, and adopts nothing ever after |
| `LeaseMaintenance.InForce` | src/host/lease_maintenance.rs:101-122 | The deadline in force is always that of a renewal this host confirmed, the first or one a poll delivered |
| `LeaseMaintenance.RoundIsAdopted` | src/host/lease_maintenance.rs:101-181 | In any waiting loop, a request made once the interval elapsed and confirmed before the deadline is in force afterwards; a failed one leaves the renewal that was |
| `LeaseMaintenance.PunctualLoopRunsOn` | src/host/lease_maintenance.rs:101-181 | A host whose renewals each end before the deadline in force never loses its lease, and the renewal confirmed last is in force |
| `LeaseMaintenance.RunningIff` | src/host/lease_maintenance.rs:101-181 | The loop runs on exactly if no poll so far told it to stop or came at or after the deadline in force |
| `LeaseMaintenance.LostIff` | src/host/lease_maintenance.rs:124-166 | The lease is reported lost exactly if the first poll that ends the loop is one at or after that deadline |
| `LeaseMaintenance.RunningIsLeased` | src/host/lease_maintenance.rs:101-225 | A poll that leaves the loop running is less than 2 ms, less the time to the stamp, past the expiry stamped for the very renewal in force |
| `LeaseMaintenance.RunningHostHasItsRow` | src/host_leases/postgres.rs:25-71 | Up to that slack before such a poll, the store's row is still this session's and unexpired, if the session only renewed |
| `LeaseMaintenance.RenewUntilStopped` | src/host/lease_maintenance.rs:101-122 | The loop over both biased selects computes that renewal, loss and end |
| `JsonLength.JsonStringByteLength` | npm/host/session.ts:298-314 | The charged length if it fits the budget, else nothing, for every budget |
| `JsonLength.JsonByteLength` | npm/host/session.ts:250-269 | The measure exactly if the value is JSON, contains no cycle, nests at most 256 deep and fits the budget; the ancestor set is restored |
| `JsonLength.JsonObjectByteLength` | npm/host/session.ts:271-290 | The same for objects and arrays, with separators, keys and colons |
| `JsonLength.JsonEntryByteLength` | npm/host/session.ts:278-287 | The same for one entry |
| `JsonLength.WalkableIff` | npm/host/session.ts:250-273 | A value can be walked exactly if it is JSON, contains no cycle and nests at most 256 deep |
| `JsonLength.PlainIsExact` | npm/host/session.ts:298-314 | Without units from 0x0800 to 0xD7FF the charge is the UTF-8 length of the escaped string |
| `JsonLength.DeviationIsExact` | npm/host/session.ts:298-314 | By how many bytes any string is measured too long or too short |
| `JsonLength.ExactIffPlain` | npm/host/session.ts:307-309 | A string and all its prefixes are measured exactly if and only if it has no such unit |
| `JsonLength.MeasureDeviates` | npm/host/session.ts:250-290 | By how many bytes any document is measured too long or too short |
| `JsonLength.MeasureIsExact` | npm/host/session.ts:250-290 | For trees without such units the measure is the length of the serialized bytes |
| `JsonLength.JsonFitsWithinBytes` | npm/host/session.ts:246-248 | A document passes exactly if it can be walked and its serialized bytes with its deviation added fit; without miscounted units the deviation is zero |
| `JsonLength.MiscountedDocuments` | npm/host/session.ts:307-309 | A document of 5 bytes measured as 6, and one of 8 bytes measured as 6 |
| `SocketEffects.FoldReadsTheList` | src/control_plane/websocket.rs:448-533 | A connection's queue, tags and metadata are read off the list: deliveries in order, broadcasts filtered by openness, exclusions and tags set earlier, values set last |
| `SocketEffects.BroadcastReaches` | src/control_plane/websocket.rs:456-481 | A broadcast is one message for every open connection that is not excluded and has all the tags asked for, and nothing for any other |
| `SocketEffects.NamedConnectionIsAffected` | src/control_plane/websocket.rs:482-532 | Any other effect concerns the connection it names and no other, and what it does to it |
| `SocketEffects.SendToAll` | src/control_plane/websocket.rs:456-481 | A broadcast gives the same result in any iteration order |
| `SocketEffects.Addressed` | src/control_plane/websocket.rs:482-532 | An effect for one connection affects that one only |
| `SocketEffects.SocketRegistry.ApplyOne` | src/control_plane/websocket.rs:454-533 | Every socket of the actor reads the effect for itself; other actors untouched |
| `SocketEffects.SocketRegistry.Apply` | src/control_plane/websocket.rs:448-452 | Every socket of the actor ends as if it alone had read the list; other actors untouched; the cap and non-emptiness kept |
| `SocketEffects.SocketRegistry.Insert` | src/control_plane/websocket.rs:343-365 | Accepted exactly below 128 connections, closed at first; no empty entry appears |
| `SocketEffects.SocketRegistry.Remove` | src/control_plane/websocket.rs:367-377 | The connection is gone, an emptied actor entry too |
| `SocketEffects.SocketRegistry.Activate` | src/control_plane/websocket.rs:548-558 | The connection is open, nothing else changes |
| `SocketEffects.SocketRegistry.Connections` | src/control_plane/websocket.rs:379-392 | Exactly the open connections, each once |
| `SocketEffects.SocketRegistry.PrepareEvent` | src/control_plane/websocket.rs:404-446 | The connections an event sees, and the registered data a disconnect carries |
| `SnapshotNames.ValidatesIffPrinted` | src/storage_urls.rs:112-146 | For a valid actor and positive version a name validates if and only if the printer makes it from some 32-digit nonce |
| `SnapshotNames.NameDeterminesCommit` | src/storage_urls.rs:130-146 | One name never validates for two different actors or versions |
| `SnapshotNames.PrintedIsValid` | src/storage_urls.rs:163-171 | Every printed name passes the general checks on object names |
| `SnapshotNames.PrintedIff` | src/storage_urls.rs:112-128 | A name is printed exactly for a valid actor, a positive version and a nonce of 32 hexadecimal digits |
| `SnapshotNames.HexDigits` | src/storage_urls.rs:112-118 | Nonces are made of hexadecimal digits of either case |
| `SnapshotNames.ComponentCharacters` | src/actor/protocol.rs:103-115 | Components are made of letters, digits, dashes, underscores and dots |
| `SnapshotNames.ValidCommitIff` | src/placement.rs:325-348 | A commit of a validated name is well formed exactly if its owner and session are named, its epoch has begun and its request id has 1 to 255 bytes |
| `SnapshotNames.OwnersCommitIsAccepted` | src/placement.rs:128-156 | Such a commit of the row's owner at the row's version is accepted and becomes the head |
| `SnapshotNames.ValidActorIffComponents` | src/actor/protocol.rs:37-50 | An actor is valid exactly if its components are and have at most 243 bytes together |
| `SnapshotNames.StorageKeysCollide` | src/actor/protocol.rs:45-50 | Moving the boundary between components across a dot keeps the storage key |
| `SnapshotNames.TwoActorsOneKey` | src/actor/protocol.rs:37-50 | Two valid, different actors with one storage key |
| `SnapshotNames.UniqueKeyIffDotFree` | src/actor/protocol.rs:45-50 | A storage key belongs to one actor key only if and only if none of its components has a dot |
| `SnapshotNames.SharersAreCuts` | src/actor/protocol.rs:45-50 | Two actors share a key if and only if one is a cut of the other's key body at two of its dots |
| `SnapshotNames.SplitOfJoin` | src/storage_urls.rs:136-143 | Splitting at slashes undoes joining slash-free parts |
| `SnapshotNames.JoinOfSplit` | src/storage_urls.rs:136-143 | Joining undoes splitting |
| `SnapshotNames.DecimalRoundTrip` | src/storage_urls.rs:119-127 | A printed version number reads back as itself |
| `ProviderPool.StepKeeps` | src/sandbox/command_process.rs:121-169 | A process that is not busy has empty pipes; a busy one holds only its lessee's command or reply; at most two processes |
| `ProviderPool.RepliesArePaired` | src/sandbox/command_process.rs:31-61 | With callers cancelled anywhere, every returned reply is the complete line written for that caller's own command |
| `ProviderPool.DecodedReplyIsDelivered` | src/sandbox/command_process.rs:121-153 | In every run a complete reply that can be decoded is delivered to its lessee and leaves the process idle; one that cannot is not, and leaves it busy |
| `ProviderPool.CutOffIsNotAnswered` | src/sandbox/command_process.rs:133-169 | In every run a caller cut off in its command or its reply is not answered, and its process goes with the lease |
| `ProviderPool.LesseeIsServed` | src/sandbox/command_process.rs:121-153 | A caller that leases an idle process can write, be answered and read its own reply |
| `ProviderPool.OneProcessPerCaller` | src/sandbox/command_process.rs:31-61 | In every run no two processes serve one caller |
| `ProviderPool.LeasesStay` | src/sandbox/command_process.rs:31-61 | Nobody but its lessee has a process until the lease drops or the process ends |
| `ProviderPool.LeasesBegin` | src/sandbox/command_process.rs:77-110 | A lease begins with a new or an idle process, goes to a new caller and finds empty pipes |
| `ProviderPool.ProviderReadsLines` | npm/providers/commandProcess.ts:31-51 | In every run the provider, splitting its input into documents, reads exactly the complete commands in its pipe |
| `ProviderCommands.CommandDocuments` | npm/providers/commandProcess.ts:31-51 | The documents and the error do not depend on how the input is cut into chunks |
| `ProviderCommands.EveryLineIsADocument` | npm/providers/commandProcess.ts:31-51 | Lines that fit come out one by one, in order |
| `ProviderCommands.CutOffLinesAreNoDocuments` | npm/providers/commandProcess.ts:31-51 | A line that was cut off yields no document, whatever whole ones precede it |

## Left out

- Issuing and checking tokens, socket authorization, TLS, gRPC, HTTP and socket transport, URL signing: steps that may fail or lose a reply.
- Provisioning, image warmup, region choice and the retry loop of `route_actor`: claims with any expected row stand for all of it; its termination is not stated.
- Caches of routed targets: represented as capabilities that stay usable for ever.
- Telemetry, environment parsing, process startup, actor registration and module loading.
- Liveness: that `drain`, waiting invocations, renewals or calls come to an end; stated is what can happen next (`ExecutedCallCanComplete`, `RetryCanSucceed`, `DrainReturnsIff`, `DroppedGuardIsFree`, `PunctualLoopRunsOn`).
- Customer code is a function of the JSON state: instance fields that are not serialized, time and randomness are not modelled.
- The channel from a renewal that lost the lease to the process's shutdown; the millisecond granularity of the timer itself.
- The one-shot mode of the provider process, and chunk boundaries inside a UTF-8 sequence.
- Claim: `object.validate` of the PostgreSQL store is not repeated; keys are valid.
- Release: the three fields of a guard are dropped in one step; in the code they are dropped one after the other.
- Apply: two lists of effects applied at the same time may interleave effect by effect; the contract is for one list at a time.
- RenewUntilStopped: polls are given as a sequence; that a timer wakes the loop in time is not modelled.
- RunKeeps: object versions and epochs are unbounded in the protocol, apart from the limits that commits, claims and publications check.
- Serve: an exchange whose caller is cancelled is not an operation here; what its command then does at the worker is part of the commit protocol.
- Customer code is atomic at its return: two handlers of one worker that interleave between their awaits, which only a cancelled call makes possible, are modelled as running one after the other.
- The commit protocol is for one storage key and assumes one actor behind it: host caches and gates go by storage key (src/host/actor_host.rs:107), workers by actor key (npm/host/worker/supervisor.ts:291-294).
- Serve: a command is one step; other actors' commands under way at the time are given as the set of busy workers.
- ExchangeInProtocol: an eviction that the executor makes by itself is shown in the protocol by a later `InstanceEvicted`; workers with commands of cancelled calls under way are not covered, since the executor's model has none.
- EveryHostCallCanHappen: what others do between the steps of the call is not part of the course; the lemmas for calls under way start from any reachable state.
- Exchange: the numbers that pair replies with commands are not modelled.
