# Container controller: protocols and their guarantees

This project models the stateful protocols of the WHMCS container controller and its
hosting plugin, and proves what they keep on every run: whatever requests arrive, in
whatever order goroutines run, whichever calls fail with or without their effect, and
wherever the process dies.

| part | files | in one sentence |
|---|---|---|
| version order | `Versions`, `VersionTexts` | the comparison that gates downgrades is the lexicographic order on zero-padded integers |
| blue/green lifecycle | `Lifecycle`, `LifecycleLock`, `LifecycleInvariant`, `LifecycleSteps`, `LifecycleTheorems`, `LifecycleRuns`, `LifecycleOutcomes`, `LifecycleLimits`, `LifecycleRecovery` | one service as a state machine over its record, its goroutines with their private copies, the health attempts, Caddy, two containers and the dataset |
| the manager | `Sections`, `Manager`, `Docker`, `Fleet`, `ManagerRefinement` | the locked sections and the slot operations as the code performs them, and the proof that from the empty store on they follow the machines of all services at once |
| bulk upgrades | `BulkJobs`, `BulkQueue`, `BulkWorker` | a persisted job, merged into while its worker upgrades without the lock, with restart recovery and a wake channel |
| Matomo sites | `Matomo`, `MatomoTheorems`, `MatomoService`, `MatomoIds`, `MatomoImport` | at-most-once remote creation, its PHP, the two ID validators and the SQL import |
| routing files | `Caddy` | the two-file transaction behind every route |
| DNS | `Dns` | the request lists of repair and clean-up, cut off anywhere |
| the store | `Repository` | crash-atomic files under all of it |

## How the parts fit

Code that changes state step by step is imperative here: classes whose methods assign
fields in the order of the source and loop where the source loops, each proved against
a specification function and, field by field, against the request and the state before.
The same functions make up the state machines, so the
theorems about runs are theorems about what those methods write: `Manager`'s methods
compute the steps of `Sections`, and `ManagerRefinement` shows that every write of a
machine, a goroutine's or a request's, is such a section and is invisible to the other
services.  `ControllerFollowsItsMachines` puts this together from the start: whatever
happens to whatever services, the store shows a state that each service's own machine
reaches.  `Docker`'s loops end in the outcomes of the lifecycle's calls, and
`MatomoService`'s calls are the events of `Matomo`.  In the lifecycle each locked
section, Docker call, Caddy call and store write is one event that carries its
own outcome; a run is a sequence of events, and `Reachable` means reached from the
empty state by some run.

The lifecycle invariant has two layers.  `LifecycleLock` holds in every state: who owns
the record, which attempts count, and how a deletion proceeds.  `LifecycleInvariant`
adds the route and the containers; it holds, with or without a tombstone, until a
record is erased under its owner (below).  `Past.lock` remembers whether that happened;
`LifecycleRecovery` shows how both layers return afterwards.

Calls that leave the program (Docker, Caddy, the database, Matomo, the DNS API, the
health probe) become steps that succeed, fail, or fail although they took effect.
Where a class lets the environment choose, a method takes the choice as a parameter or
assigns an arbitrary value; a parameter `healthy` or `calm` rules failures out, and the
contract then promises success.

`LifecycleOutcomes` says what each request ends in if nothing goes wrong, in terms of the
request and the record before; the invariants say what holds whatever goes wrong.

## Where the plainest claims fail

These natural claims about the code are false.  Each has a reachable counterexample and
the exact condition under which the claim holds.

* *the phase is an exclusive lock.*  `Delete` behind a finished tombstone erases the live
  record without a look at its phase.  `LockBreaksIff` shows that nothing else breaks the
  lock; `OwnedRecordsCanBeErased` and `TwoOwnersCanMeet` are the counterexamples.  As soon
  as nobody owns the record the lock holds again: `LockReturns`.
* *a running service has its route.*  The clean-up behind a tombstone removes the route of
  a record that exists beside it.  `SweepsUnrouteIff` gives the exact event,
  `RunningServicesCanBeUnrouted` the run.
* *running implies the recorded host names.*  `deployDomains` routes before it stores;
  a crash between the two, or a failed write whose roll back fails, leaves the names
  torn.  `RunningAgreesWithTheWorld` shows agreement exactly when the last host name
  change was not cut short, `HostsAreTornIff` which endings cut it short;
  `HostsCanDisagreeWhileRunning` is the counterexample.
* *running implies the recorded version.*  `StartSlot` starts a container it finds,
  whatever its version, and a retried provision does not clear its slot first.
  Agreement holds exactly when the container was not adopted in this way, and
  `AdoptsIff` says when it is; `VersionsCanDisagreeWhileRunning` is the counterexample.
* *a service that is not active does not run its live slot.*  `Provision` looks at the
  record in two separate sections and the second does not look at the state, so a
  request that passed the first may retry a record that was stopped meanwhile; and an
  upgrade that replaces a failed retry targets the live slot.  For every kind of start
  there is the exact condition at its admission: `RetryStartsTheLiveSlotIff` for the
  retry, `StartsRunTheLiveSlotIff` for Resume and upgrade.  `TerminatedServiceCanRun` and
  `UpgradesCanRunATerminatedService` are the runs.
* *both containers run only while an active service is upgraded, suspended or
  terminated.*  A Resume spares the live slot, which such a retry may have started, and a
  late provision does not look at the second slot, which an earlier record may have left
  running.  The exact conditions are `StartsRunBothIff` for Resume and upgrade and
  `ProvisionsRunBothIff` for provisions; nothing but a start makes a container run
  (`StartsToRunIff`).  `TwoContainersCanRun` and `ProvisionsCanRunBoth` are the runs.
* *a failed Caddy call leaves the routing files as they were.*  A file that exists but
  cannot be read is not put back: `FailuresChangeNothingIff`, `UnreadableRoutesCanBeLost`.
* *the bulk worker never sleeps beside a running job.*  It does after a store error,
  and only then: `StrandsIff` names the events, `StaysStrandedIff` what ends it, and
  `StoreErrorStrandsTheJob` is the run.

`Dns.OldAaaaSurvivesIff` gives the same kind of answer for AAAA data at the apex.

## Model

| member | source | states |
|---|---|---|
| Versions.CompareFromIsLexicographic | go-service/internal/docker/docker.go:180-196 | The comparison loop answers -1, 1 or 0 exactly when the zero-padded sequences are lexicographically before, after or equal |
| Versions.CompareIsLexicographic | go-service/internal/docker/docker.go:163-197 | Two versions are comparable iff every part of both is an integer, and then the sign is that of the lexicographic order |
| Versions.CompareIsTotalPreorder | go-service/internal/docker/docker.go:163-197 | On ordered versions of any lengths the comparison is reflexive, antisymmetric in sign, total and transitive, strictly so on one side |
| Versions.PaddingIsNeutral | go-service/internal/docker/docker.go:180-196 | Appending zero parts gives an equal version |
| Versions.ParseVersion | go-service/internal/docker/docker.go:164-175 | The parsing loop succeeds iff every dot-separated part is a 64-bit integer and then returns exactly those integers |
| Versions.CompareSequences | go-service/internal/docker/docker.go:180-196 | The loop with early exits computes the specified sign |
| Versions.CompareVersions | go-service/internal/docker/docker.go:163-197 | The method returns the specified sign and comparability, for every pair of strings |
| Versions.UpgradesKeepTheNewSocket | go-service/internal/docker/docker.go:156-161 | A version that is not older than one on the new socket is on the new socket too |
| Versions.NotOlderIsTransitive | go-service/internal/service/manager.go:1206-1209 | "Needs no downgrade confirmation" composes along a chain of upgrades |
| VersionTexts.VersionsReadBack | go-service/internal/docker/docker.go:163-179 | A version written as 64-bit numbers joined by dots, with or without a leading v, is read as exactly these numbers |
| VersionTexts.SplitJoins | go-service/internal/docker/docker.go:164-167 | Splitting at the dots loses nothing and leaves no dot in a part |
| VersionTexts.AtoiRoundTrip | go-service/internal/docker/docker.go:168-172 | Every signed or unsigned 64-bit integer is read back, and larger ones are no numbers |
| LifecycleSteps.InvKept | go-service/internal/service/manager.go:172-1437 | Every event of the lifecycle machine (first look, admission, Docker call, Caddy call, store write, each with every failure and partial effect, host name change, clean-up behind a tombstone, restart) keeps the lock invariant, and the world invariant as long as no record was erased under its owner |
| LifecycleSteps.ReachableInv | go-service/internal/service/manager.go:172-1437 | Every interleaving keeps to the lock invariant, tombstone or not, and to the world invariant until a record is erased under its owner |
| LifecycleLock.LockKept | go-service/internal/service/manager.go:594-748 | The layer without the world: at most one owner and its copy current unless the lock is broken, attempt counters, the order of a deletion, an ID once stored stays stored; kept by every event |
| LifecycleTheorems.PhaseIsAnExclusiveLock | go-service/internal/service/manager.go:594-656 | At most one goroutine is in an unlocked section that will write the live record, and its private copy agrees with the persisted lifecycle fields, unless a record was erased under its owner and the process has not restarted since |
| LifecycleTheorems.LockBreaksIff | go-service/internal/service/manager.go:659-664 | The one event that ends this: a Delete that meets a finished tombstone while somebody owns the live record |
| LifecycleTheorems.LockIsUnbroken | go-service/internal/service/manager.go:659-664 | A state without a finished tombstone never had such a Delete |
| LifecycleTheorems.NoLifecycleWriteIsLost | go-service/internal/service/manager.go:1404-1433 | While a goroutine owns the record, another event that is no restart leaves the owner alone, keeps the lifecycle fields iff it is not that Delete, and takes nothing of the world but the route, as a clean-up behind a tombstone |
| LifecycleTheorems.SupersededAttemptsAreInert | go-service/internal/service/manager.go:1218-1226 | In every reachable state a health result whose attempt was abandoned or is not the latest changes nothing but its own goroutine |
| LifecycleTheorems.TimelyResultsAreOfTheTargetedContainer | go-service/internal/service/manager.go:1213-1226 | The result of a current attempt stands for the very container generation that this attempt started, running in the target slot, and no second goroutine carries it |
| LifecycleTheorems.WritersAttemptsAreCurrent | go-service/internal/service/manager.go:1079-1330 | Every goroutine that starts or commits an activation, and every other owner that carries an attempt, the one about to persist a failure included, has the latest attempt, which no stop and no replacement ended |
| LifecycleTheorems.WritersKeepTheirAttempt | go-service/internal/service/manager.go:1217-1330 | Whatever a step of such a goroutine ends in, as long as it owns the record it does so under the same attempt |
| LifecycleTheorems.AcceptedContainersStay | go-service/internal/service/manager.go:1217-1330 | And at each of them the slot it commits runs the very generation that its attempt started |
| LifecycleTheorems.SwitchingIsFenced | go-service/internal/service/manager.go:1281-1284 | When finishHealth moves the traffic, its attempt is the latest and never abandoned, and the target runs the generation it checked |
| LifecycleTheorems.RunningAgreesWithTheWorld | go-service/internal/service/manager.go:1319-1329 | running: active, targets empty, the live slot runs, and the route is the proxy to it, or gone beside a tombstone; host names agree iff no host name change was cut short, the version agrees iff the container was not adopted; nobody owns the record |
| LifecycleTheorems.StoppedAgreesWithTheWorld | go-service/internal/service/manager.go:1341-1362 | stopped: suspended with nothing running and the suspension page, or no route beside a tombstone; or terminated with no route and no containers |
| LifecycleTheorems.SweepsUnrouteIff | go-service/internal/service/manager.go:1368-1378 | A settled service loses its route at exactly one event: a clean-up behind a tombstone that removes it |
| LifecycleTheorems.UpgradesNeverTouchTheRoutedContainer | go-service/internal/service/manager.go:1140-1187 | No step of an upgrade, failed ones included, changes the container behind the current route |
| LifecycleTheorems.OldSlotServesUntilTheNewOneIsProved | go-service/internal/service/manager.go:1140-1159 | From the removal of the target slot through waiting_for_health and a health failure the route is the live slot, which is not the target, or was taken beside a tombstone |
| LifecycleTheorems.OneContainerRuns | go-service/internal/service/manager.go:538-575 | Both slots run only while active and upgrading, suspending or terminating, and while not active the live slot never runs, unless a provision took over a stopped record or running containers since everything was last stopped |
| LifecycleTheorems.TakesOverIff | go-service/internal/service/manager.go:222-289 | Exactly these events end that guarantee: a new record beside running containers and a retry of a stopped one; and exactly a completed StopAll or RemoveAll restores it |
| LifecycleTheorems.StartsToRunIff | go-service/internal/docker/docker.go:219-248 | In every state a container starts to run at exactly one kind of event: a start of its slot that took effect, reported or not |
| LifecycleTheorems.ProvisionsRunBothIff | go-service/internal/service/manager.go:222-315 | In every state: once an admitted provision, first or retry, has started its container, both slots run iff the second one ran at the admission |
| LifecycleTheorems.StartsRunBothIff | go-service/internal/service/manager.go:538-575 | In every state: once an admitted Resume or upgrade has started its container, both slots run iff the slot it leaves alone ran at the admission, for a Resume the live one |
| LifecycleTheorems.StartsRunTheLiveSlotIff | go-service/internal/service/manager.go:1112-1123 | In every state: the live slot of a service that is not active then runs iff it ran before or the upgrade replaced a provision |
| LifecycleTheorems.RetryStartsTheLiveSlotIff | go-service/internal/service/manager.go:222-315 | In every state: once a provision retry has started its container, the live slot of a service that is not active runs iff it is the first one or the second one ran before |
| LifecycleTheorems.DatasetIsDestroyedSafely | go-service/internal/service/manager.go:688-730 | In every reachable state: whenever the dataset goes, its destroyer is the only goroutine, the state is terminated, and no container and no route exist |
| LifecycleTheorems.NoServiceIsForgotten | go-service/internal/service/manager.go:731-748 | Along any run an ID that had a record or a tombstone has one of them |
| LifecycleRuns.CommittedVersionNeverDecreases | go-service/internal/service/manager.go:1193-1211 | Along any run that keeps its record, without a confirmed downgrade or a redeployment of a terminated service, the committed version never decreases |
| LifecycleRuns.TerminateAlwaysWorks | go-service/internal/service/manager.go:594-656 | From every reachable state with a record a restart and a fault-free Terminate end terminated and stopped, every other committed field kept and the world bare |
| LifecycleRuns.ResumeAlwaysWorks | go-service/internal/service/manager.go:499-588 | From every reachable idle state a fault-free healthy Resume of a suspended or terminated service that is running, stopped or failed by its phase ends active and running at its version in the other slot, routed under the recorded names, with package and Matomo ID kept, whatever containers and routes there were |
| LifecycleRuns.NoDeadEnds | go-service/internal/service/manager.go:1827-1842 | From every reachable state with a record, beside a tombstone and after an erased owner too, a restart, a Terminate unless that is done, and a Resume bring the service back to its committed version |
| LifecycleOutcomes.UpgradeAlwaysWorks | go-service/internal/service/manager.go:1079-1330 | From every reachable state without an owner in which an upgrade is allowed, replaced attempts included, its fault-free healthy run ends active and running at the requested version, in the other slot unless it carries on a first start, with hosts, address, package and Matomo ID of the request, else of the replaced attempt, else of the record |
| LifecycleOutcomes.SuspendAlwaysWorks | go-service/internal/service/manager.go:594-656 | From every reachable state with an active or suspended service a restart and a fault-free Suspend end suspended and stopped: each container kept but not running, the suspension page under the recorded names, every other committed field kept |
| LifecycleOutcomes.SuspendWorks | go-service/internal/service/manager.go:594-656 | The same without the restart, from every state in which a Suspend is allowed |
| LifecycleOutcomes.ProvisionAlwaysWorks | go-service/internal/service/manager.go:172-330 | From every reachable state without record and tombstone a fault-free healthy provision ends running at the requested version, and the record is exactly what the request says |
| LifecycleOutcomes.RetryAlwaysWorks | go-service/internal/service/manager.go:203-330 | A fault-free healthy retry of a failed provision ends active and running, at the requested version iff the first slot was empty or held it |
| LifecycleOutcomes.DeleteAlwaysWorks | go-service/internal/service/manager.go:658-748 | A fault-free Delete of a terminated service leaves a finished tombstone, no record, no containers, no route and no dataset |
| LifecycleOutcomes.UnknownMeansUntouched | go-service/internal/service/manager.go:172-289 | A reachable service without record and tombstone has no containers, no route and no goroutines |
| LifecycleOutcomes.UpgradeIsAdmittedIff | go-service/internal/service/manager.go:1190-1211 | The exact states in which an upgrade request is admitted |
| LifecycleOutcomes.ResumeIsAdmittedIff | go-service/internal/service/manager.go:524-531 | The exact states in which a Resume is admitted |
| LifecycleOutcomes.StopIsAdmittedIff | go-service/internal/service/manager.go:602-622 | The exact states in which a Suspend or Terminate is admitted |
| LifecycleOutcomes.DeleteIsAdmittedIff | go-service/internal/service/manager.go:681-690 | The exact states in which a Delete without a tombstone is admitted |
| LifecycleRecovery.LockReturns | go-service/internal/service/manager.go:594-664 | From any moment at which nobody owns the record the phase is an exclusive lock again, until the next Delete that erases an owned record |
| LifecycleRecovery.TerminateRestoresOrder | go-service/internal/service/manager.go:594-656 | From every reachable state: after a restart and a fault-free Terminate settled phases agree with route and containers again, until the next such Delete |
| LifecycleTheorems.HostsAreTornIff | go-service/internal/service/manager.go:467-488 | A host name change leaves a settled service under other names than recorded iff it was cut between Caddy and the store, or its roll back failed |
| LifecycleTheorems.AdoptsIff | go-service/internal/docker/docker.go:235-242 | A successful start takes over a container of another version iff it is the first start of a provision and finds one |
| LifecycleLimits.CrashTearsHosts | go-service/internal/service/manager.go:467-478 | From any running service a crash between Caddy and the store leaves it routed under names its record lacks |
| LifecycleLimits.HostsCanDisagreeWhileRunning | go-service/internal/service/manager.go:467-488 | Such a state is reachable, so running does not by itself imply the recorded host names |
| LifecycleLimits.TerminatedServiceCanRun | go-service/internal/service/manager.go:203-248 | A terminated service whose live slot runs is reachable: a request that looked while the provision had failed retries the record after it was terminated |
| LifecycleLimits.TwoContainersCanRun | go-service/internal/service/manager.go:203-248 | From there an ordinary Resume leaves both containers of a terminated service running |
| LifecycleLimits.UpgradesCanRunATerminatedService | go-service/internal/service/manager.go:1112-1123 | A terminated service whose live second slot runs is reachable: a late retry of its record fails, and an upgrade replaces that provision |
| LifecycleLimits.ProvisionsCanRunBoth | go-service/internal/service/manager.go:222-289 | Both containers run while an active service is only being provisioned: a late provision is admitted after Delete erased a record whose resume had failed with its container running |
| LifecycleLimits.OwnedRecordsCanBeErased | go-service/internal/service/manager.go:659-664 | A reachable run of Delete, Resume and Delete erases the record under the goroutine that resumes it |
| LifecycleLimits.TwoOwnersCanMeet | go-service/internal/service/manager.go:222-289 | After such an erasure a late provision is admitted beside the first owner: two goroutines write the same record |
| LifecycleLimits.RunningServicesCanBeUnrouted | go-service/internal/service/manager.go:1368-1384 | A running service without a route is reachable through the clean-up behind its tombstone |
| LifecycleLimits.VersionsCanDisagreeWhileRunning | go-service/internal/docker/docker.go:235-242 | A running service whose container has another version than its record is reachable, because a provision retry starts whatever container it finds |
| LifecycleInvariant.RunningRecordOk | go-service/internal/service/manager.go:1318-1329 | The last write of finishHealth agrees with the world for all three activations |
| Fleet.EveryServiceFollowsItsMachine | go-service/internal/service/manager.go:71-73 | In every run of the whole controller, with one shared attempt counter and common restarts, each service is in a state its own machine reaches, and an outstanding attempt belongs to one service |
| Fleet.AdvanceIsSound | go-service/internal/service/manager.go:1394-1402 | Each event of one service, seen by all others, keeps that |
| Manager.Manager.constructor | go-service/internal/service/manager.go:60-88 | A new manager has issued no attempt |
| Manager.Manager.NextHealthAttempt | go-service/internal/service/manager.go:1394-1402 | The number issued was never issued before to any service and is the only entry changed |
| Manager.Manager.LookFirst | go-service/internal/service/manager.go:203-211 | The first section of Provision goes on exactly for a missing record or a failed provision of the same names, address, version and Matomo ID that is not forced |
| Manager.Manager.AdmitProvision | go-service/internal/service/manager.go:222-289 | The second section of Provision: every field stored for a new service and for a retry, and exactly which records are refused, which are running already and which are retried |
| Manager.Manager.AwaitHealth | go-service/internal/service/manager.go:320-326 | The end of Provision stores the waiting record and issues its attempt in one section, or neither |
| Manager.Manager.AdmitResume | go-service/internal/service/manager.go:504-549 | Admitted iff suspended or terminated, running, stopped or failed by its phase, and stored; every field of the record, fresh attempt, every other service unchanged |
| Manager.Manager.AdmitUpgrade | go-service/internal/service/manager.go:1079-1135 | Admitted iff nothing is in progress that cannot be replaced, something is to be done, no downgrade goes unconfirmed, and the write succeeds; the pending version is the requested one; fresh attempt, every other service unchanged |
| Manager.Manager.Retargeted | go-service/internal/service/manager.go:1094-1127 | Field by field the pending upgrade: the requested version, the slot, and the request's values or those that a replaced attempt hands on |
| Manager.Manager.AdmitStop | go-service/internal/service/manager.go:595-629 | Admitted iff the phase and state allow it and the write succeeds; the operation is suspend iff the target is suspended; the outstanding attempt is abandoned with it and not otherwise |
| Manager.Manager.AdmitDelete | go-service/internal/service/manager.go:659-701 | All branches, with and without a tombstone, and what each leaves in the store |
| Manager.Manager.Bury | go-service/internal/service/manager.go:738-747 | Tombstone first, record second; after either failure the ID is still stored as one of them |
| Manager.Manager.SaveMatomo | go-service/internal/service/manager.go:359-372 | The new Matomo ID is stored iff the service is still suspended and stopped |
| Manager.Manager.Redeploy | go-service/internal/service/manager.go:383-401 | The terminated record is rewritten iff it is still terminated and stopped: names, address, version, package and Matomo ID of the request, all else kept |
| Manager.Manager.DeployDomains | go-service/internal/service/manager.go:446-493 | Caddy before the store and roll back after a failed write: the record and route of each of the five endings |
| Manager.Manager.JudgeHealth | go-service/internal/service/manager.go:1217-1259 | A verdict is dropped iff its attempt is not current or the record no longer waits for its operation; the attempt is spent iff current; exact records otherwise |
| Manager.Manager.Put | go-service/internal/service/manager.go:1404-1414 | One record is replaced or none |
| Manager.Manager.FailSync | go-service/internal/service/manager.go:1428-1433 | The private copy, marked failed, replaces the stored record |
| Manager.Manager.Halt | go-service/internal/service/manager.go:643-651 | Once the containers are stopped the new state is stored: suspended for suspend, terminated for terminate |
| Manager.Manager.Rest | go-service/internal/service/manager.go:1356-1362 | Once the route is right the record is stored as stopped with nothing pending |
| Manager.Manager.StartDrain | go-service/internal/service/manager.go:1294-1305 | An upgrade commits names and address before it drains the old slot |
| Manager.Manager.PutTombstone | go-service/internal/service/manager.go:1416-1426 | The end of a clean-up writes its own tombstone or nothing |
| Manager.Manager.FinishDelete | go-service/internal/service/manager.go:1368-1384 | The route goes first; the tombstone is finished iff that worked and is failed otherwise |
| Manager.Manager.Deferred | go-service/internal/service/manager.go:1387-1392 | finishRouting goes on iff the record is still in progress in its operation |
| Manager.Manager.PutDnsStatus | go-service/internal/service/manager.go:1600-1617 | A DNS status is written iff the record still has the domain and address it is about, an error only over pending, and then it changes nothing else |
| Manager.Manager.GoLive | go-service/internal/service/manager.go:1294-1326 | The record that goes live: the pending slot, version, names, address and package are committed and nothing stays pending |
| Manager.Manager.RecoverInterrupted | go-service/internal/service/manager.go:1827-1856 | Without a store error exactly the records that were in progress are failed and exactly the deletions in progress are failed, all else kept; with one, each record is either as before or recovered |
| Manager.Manager.RecoverServices | go-service/internal/service/manager.go:1835-1842 | The loop over the live records, stopped by any store error |
| Manager.Manager.RecoverTombstones | go-service/internal/service/manager.go:1843-1855 | The loop over the tombstones: each is as before or recovered, and all are recovered without a store error |
| ManagerRefinement.OwnMachineFollows | go-service/internal/service/manager.go:222-1437 | Every event of a machine that writes, the steps of its goroutines included, is a section the store admits, made of the arguments or the private copy, and the store then shows the state the event ends in |
| ManagerRefinement.SectionIsLocal | go-service/internal/service/manager.go:1394-1402 | No section touches the records, tombstones or attempts of another service |
| ManagerRefinement.StoreFollowsTheFleet | go-service/internal/service/manager.go:60-88 | Whatever happens to whatever service, crashes and recoveries included, the store keeps showing the machines of all services |
| ManagerRefinement.ControllerFollowsItsMachines | go-service/internal/service/manager.go:60-1856 | From the empty store on, after any sequence of requests, goroutine steps, crashes and recoveries of any services, the store shows a state that each service's own machine reaches, and no two services share an attempt |
| ManagerRefinement.AdmittedRequestsAreEnabled | go-service/internal/service/manager.go:222-701 | Conversely a request the store admits is an event its machine can take, with the same effect on the store |
| Docker.Adapter.StartSlot | go-service/internal/docker/docker.go:219-248 | Success leaves the named container running, the one found whatever its version or else a new one of the version; every failure is an outcome of the lifecycle step; other slots and services unchanged; a healthy Docker means success |
| Docker.Adapter.StopAll | go-service/internal/docker/docker.go:270-281 | Success stops and keeps exactly the containers of the service; a failure at any call has stopped some part of them; a healthy Docker means success |
| Docker.Adapter.StopListed | go-service/internal/docker/docker.go:275-279 | The loop: exactly the containers reached are stopped |
| Docker.Adapter.RemoveAll | go-service/internal/docker/docker.go:283-294 | Success removes exactly the containers of the service; a failure at any call has removed some part of them; a healthy Docker means success |
| Docker.Adapter.RemoveSlot | go-service/internal/docker/docker.go:296-309 | Success empties the slot; a failure may have |
| BulkJobs.MergeServesEveryService | go-service/internal/service/manager.go:1026-1040 | A merge leaves every item that is not queued and every other service alone, and afterwards each requested service has a queued item of exactly the requested version |
| BulkJobs.MergeIsIdempotent | go-service/internal/service/manager.go:1026-1040 | Merging the same request again changes nothing |
| BulkJobs.OnlyTheRunningItemIsOpen | go-service/internal/service/manager.go:1028-1038 | In a well-formed job a service without a queued item has at most one unfinished item, which is why a merge may append |
| BulkJobs.FinishIsOk | go-service/internal/service/manager.go:1005-1024 | Settling the running item keeps the shape and the bounds, and cancels the job iff this is the third failure |
| BulkJobs.RecoveryFollowsTheService | go-service/internal/service/manager.go:872-910 | What a restart left running is recorded succeeded iff the service runs the version, failed iff the service failed for a reason of its own, with that reason, and queued again otherwise; nothing else changes but a cancellation at the third failure |
| BulkJobs.TheFirstQueuedItemIsStarted | go-service/internal/service/manager.go:911-931 | Otherwise the first queued item is started, and a job without one is completed |
| BulkJobs.NewJobsHoldTheRequest | go-service/internal/service/manager.go:1026-1040 | A new job holds one queued item of the requested version for each service, in order |
| BulkJobs.NextIsOk | go-service/internal/service/manager.go:860-931 | The first locked section keeps the shape and the bounds in all its branches, recovery included, and stops iff the job stops running |
| BulkJobs.NextMakesProgress | go-service/internal/service/manager.go:872-925 | A turn that asks for another leaves fewer unfinished items, or as many and no stale running one; one that stops leaves none |
| BulkJobs.OrderedIsShaped | go-service/internal/service/manager.go:860-969 | The pairwise order is the same as: finished prefix, at most one running item, queued rest |
| BulkQueue.AdmittedIffAdmissible | go-service/internal/service/manager.go:756-788 | The checks, made service by service, admit exactly the requests whose services are valid, distinct, known, active and not silently downgraded |
| BulkQueue.RefusalsTellWhy | go-service/internal/service/manager.go:756-788 | The error reported is that of the first failing check, service by service |
| BulkQueue.SubmissionsAreTaken | go-service/internal/service/manager.go:790-798 | An accepted request is merged into a running job, whose other items stay, or makes a new job of its own items alone |
| BulkQueue.ServiceIdsAreNumbered | go-service/internal/service/manager.go:117-122 | A service ID is whmcs- and a positive number without leading zeros |
| BulkQueue.NothingSpeaksAgainst | go-service/internal/service/manager.go:771-788 | The first objection is missing iff no service is objected to |
| BulkQueue.StartMakesProgress | go-service/internal/service/manager.go:860-931 | The first section with any store failure keeps the job well formed and makes progress or rests |
| BulkQueue.Draft.constructor | go-service/internal/service/manager.go:790-798 | The job in memory starts as the stored one |
| BulkQueue.Draft.MergeItems | go-service/internal/service/manager.go:1026-1040 | The nested loops compute the specified merge |
| BulkQueue.Draft.FinishItem | go-service/internal/service/manager.go:1005-1024 | The item is succeeded or failed with the detail, every other item is kept, and at the third failure the job and its queued items are cancelled |
| BulkQueue.Draft.CancelRest | go-service/internal/service/manager.go:1018-1022 | The loop cancels exactly the queued items |
| BulkQueue.Draft.Find | go-service/internal/service/manager.go:911-917 | The search loop finds the first item with a status, or reports that there is none |
| BulkQueue.Queue.QueueBulkUpgrade | go-service/internal/service/manager.go:756-810 | Accepted iff admissible and the store works; the merged job is stored and the worker woken together or not at all; the error reported is that of the first failing check |
| BulkQueue.Queue.CheckServices | go-service/internal/service/manager.go:769-788 | The validation loop with its set of seen IDs reports the first objection |
| BulkQueue.Queue.Enqueue | go-service/internal/service/manager.go:790-809 | Store and wake-up happen together |
| BulkQueue.Queue.WakeLocked | go-service/internal/service/manager.go:836-842 | The open channel is closed and replaced, unless the worker was never started |
| BulkQueue.Queue.StartNext | go-service/internal/service/manager.go:860-931 | A store error leaves the job and rests; a job that is not running is left alone; otherwise the specified step is stored |
| BulkQueue.Queue.RecoverItem | go-service/internal/service/manager.go:872-910 | The stale item is succeeded iff its service is stored, running and at its version, failed iff its service failed for a reason of its own, with that reason, and queued otherwise |
| BulkQueue.Queue.FinishNext | go-service/internal/service/manager.go:940-968 | A store error or an item that is not running any more changes nothing; otherwise the item is settled, and the worker goes on unless the job was cancelled |
| BulkQueue.Queue.RunNext | go-service/internal/service/manager.go:860-969 | Whatever happens, another turn is asked for only if less is left to do |
| BulkQueue.Queue.Drain | go-service/internal/service/manager.go:850-851 | The inner loop ends, and without a store error or shutdown it ends because no job is running; if neither happens it ends that way |
| BulkQueue.WaitForItem | go-service/internal/service/manager.go:971-1003 | The first look at a service that is neither upgrading nor waiting decides: success iff it is running at the item's version, else why not; and a time-out if there is none |
| BulkWorker.StepKeeps | go-service/internal/service/manager.go:790-969 | Every event of submissions, worker, shutdowns and restarts keeps the queue's invariant |
| BulkWorker.BulkJobShape | go-service/internal/service/manager.go:860-1040 | In every reachable state: finished prefix, at most one running, then queued; failure count exact, at most three, three iff cancelled; a job that is not running has nothing unfinished |
| BulkWorker.AtMostTwoUnfinished | go-service/internal/service/manager.go:1026-1040 | At most two items of a service are unfinished, restarts included |
| BulkWorker.UnlockedItemIsStable | go-service/internal/service/manager.go:927-956 | After the unlocked upgrade the remembered index names the same running item of the same job, so the re-check passes and the result lands on it |
| BulkWorker.SubmissionsKeepTheItem | go-service/internal/service/manager.go:793-805 | Any number of submissions during an upgrade leaves that item and the worker alone |
| BulkWorker.NoLostWakeup | go-service/internal/service/manager.go:844-858 | A worker blocked on the open channel has left no job running, unless its last turn met a store error |
| BulkWorker.StrandsIff | go-service/internal/service/manager.go:844-968 | A worker comes to sleep beside a running job at exactly these events: one of its two sections cannot read or write the job, and nothing was submitted since it captured the channel |
| BulkWorker.StaysStrandedIff | go-service/internal/service/manager.go:844-968 | Only an accepted submission, a shutdown or a restart ends that |
| BulkWorker.WorkerIsNeverStuck | go-service/internal/service/manager.go:844-858 | While a job is running a worker that met no store error can take its next step |
| BulkWorker.StoreErrorStrandsTheJob | go-service/internal/service/manager.go:867-871 | The exception is real: after a store error the worker can sleep beside a queued item |
| BulkWorker.DrainEnds | go-service/internal/service/manager.go:850-851 | Without new submissions the worker takes at most three turns for each item and two more, whatever fails |
| Matomo.StepKeeps | whmcs-plugin/modules/servers/moddhosting/lib/matomo.php:55-156 | Every event (each call answered, lost, late or refused; crashes; saves; imports) keeps the invariant |
| MatomoTheorems.CreationsAreBounded | whmcs-plugin/modules/servers/moddhosting/lib/matomo.php:87-129 | Sites created and creations still on their way never exceed the edits that blanked the row, plus one if the row is not blank |
| MatomoTheorems.AtMostOneSiteAndOnePerClearing | whmcs-plugin/modules/servers/moddhosting/lib/matomo.php:87-129 | Over any run at most one site is created, plus one for each save that left the ID blank |
| MatomoTheorems.ResetsAreSaves | whmcs-plugin/modules/servers/moddhosting/moddhosting.php:244-272 | Only such saves blank the row |
| MatomoTheorems.ClearingCanDuplicate | whmcs-plugin/modules/servers/moddhosting/moddhosting.php:244-272 | The bound is met: clearing a pending marker can lead to a second site |
| MatomoTheorems.NoSiteIsOrphaned | whmcs-plugin/modules/servers/moddhosting/lib/matomo.php:88-130 | At every point since the row was last edited, a created site has its ID stored, or carries the stored marker |
| MatomoTheorems.MarkersGoAfterTheIdIsStored | whmcs-plugin/modules/servers/moddhosting/lib/matomo.php:124-130 | No event takes the marker off a site before its ID is stored |
| MatomoTheorems.LookupFindsExactlyThatSite | whmcs-plugin/modules/servers/moddhosting/lib/matomo.php:90-102 | A lookup that succeeds names the one site created under the pending marker |
| MatomoTheorems.DeployRecoversTheSite | whmcs-plugin/modules/servers/moddhosting/lib/matomo.php:87-133 | However the earlier attempt ended, an undisturbed Deploy stores that site's ID, renames it and creates nothing |
| MatomoTheorems.DeployCreatesTheSite | whmcs-plugin/modules/servers/moddhosting/lib/matomo.php:103-165 | An undisturbed Deploy of a blank row creates one site under the marker, stores its ID and renames it |
| MatomoService.Service.MatomoId | whmcs-plugin/modules/servers/moddhosting/lib/matomo.php:55-165 | With any loss or crash the invariant holds afterwards, a returned ID is the stored one, an existing ID never changes, and a row that was not blank causes no creation; if nothing is lost a blank row gets one new site, a pending marker is resolved iff exactly one site carries it, and the site is renamed |
| MatomoService.Service.CreateOrRecover | whmcs-plugin/modules/servers/moddhosting/lib/matomo.php:87-129 | The branch for a missing ID: marker before request, request before ID, ID before rename |
| MatomoService.Service.CreateSite | whmcs-plugin/modules/servers/moddhosting/lib/matomo.php:104-122 | The marker is written first and taken back only when the request provably never left |
| MatomoService.Service.LookUpSite | whmcs-plugin/modules/servers/moddhosting/lib/matomo.php:90-102 | A site is recovered iff the lookup is answered and exactly one site carries the marker |
| MatomoService.Service.FindCarrier | whmcs-plugin/modules/servers/moddhosting/lib/matomo.php:90-102 | A site is named iff the lookup is answered and exactly one site of the remote system carries the marker, and it is that one |
| MatomoService.Service.MatchingSites | whmcs-plugin/modules/servers/moddhosting/lib/matomo.php:91-98 | The loop collects exactly the sites whose group or legacy name is the marker |
| MatomoService.Service.WriteMarker | whmcs-plugin/modules/servers/moddhosting/lib/matomo.php:104-110 | One write with its three fates |
| MatomoService.Service.AddSite | whmcs-plugin/modules/servers/moddhosting/lib/matomo.php:111-121 | One creation request with its fates |
| MatomoService.Service.StoreId | whmcs-plugin/modules/servers/moddhosting/lib/matomo.php:124-126 | One write with its three fates |
| MatomoService.Service.UpdateSite | whmcs-plugin/modules/servers/moddhosting/lib/matomo.php:130-133 | One rename request with its fates |
| MatomoService.Service.SaveServiceConfig | whmcs-plugin/modules/servers/moddhosting/moddhosting.php:244-272 | What an explicit save writes and keeps, for equal and different IDs, and that it counts as a reset iff it blanks the row |
| MatomoIds.IntegersParseAsThemselves | whmcs-plugin/modules/servers/moddhosting/lib/matomo.php:9-19 | An integer is accepted iff it is a positive uint32, and as itself |
| MatomoIds.TextsParseIff | whmcs-plugin/modules/servers/moddhosting/lib/matomo.php:9-19 | A text is accepted iff it is a positive uint32 written without sign, spaces and leading zeros, and as that number; only the empty text is none |
| MatomoIds.TextRoundTrip | whmcs-plugin/modules/servers/moddhosting/lib/matomo.php:9-19 | Every ID written as text is parsed back |
| MatomoIds.TextOrderIsNumericOrder | whmcs-plugin/sql/matomo-import.sql:31-41 | For digits of one length, comparing texts is comparing numbers |
| MatomoIds.TheValidatorsAgree | whmcs-plugin/sql/matomo-import.sql:31-41 | The SQL test accepts exactly the texts whose trimmed form the PHP parser accepts, as the same ID |
| MatomoIds.CheckedIff | whmcs-plugin/sql/matomo-import.sql:31-41 | The SQL test accepts iff the trimmed text is a positive uint32 written without leading zeros |
| MatomoIds.TrimMeans | whmcs-plugin/sql/matomo-import.sql:31-41 | Trimming takes away spaces at both ends, all of them and nothing else |
| MatomoImport.FillMeans | whmcs-plugin/sql/matomo-import.sql:107-111 | Filling gives each listed service its ID, changes no stored ID and touches nothing else |
| MatomoImport.AcceptableIff | whmcs-plugin/sql/matomo-import.sql:93-104 | The rows judged acceptable are exactly those, read off the texts of the input |
| MatomoImport.ImportIsIdempotent | whmcs-plugin/sql/matomo-import.sql:93-111 | After an import the same input is still acceptable, and importing it again changes nothing |
| MatomoImport.Database.ImportMatomo | whmcs-plugin/sql/matomo-import.sql:6-119 | Applied or previewed only if every row has two valid IDs, names a known moddhosting service, once, and contradicts no stored ID; aborted only otherwise; an applied import leaves every listed service its ID, and preview, objection and error at any statement change nothing |
| MatomoImport.Database.HasDuplicates | whmcs-plugin/sql/matomo-import.sql:42-45 | The grouping finds a duplicate iff two valid rows name one service |
| MatomoImport.Database.CountProblems | whmcs-plugin/sql/matomo-import.sql:93-104 | The count is zero iff every row has both IDs, a known service of this module and no other stored ID |
| MatomoImport.Database.InsertRows | whmcs-plugin/sql/matomo-import.sql:107-111 | Row by row, the insert computes the specified filling |
| Caddy.DomainsDetermineHosts | go-service/internal/service/manager.go:2330-2336 | The list of domains given to Caddy determines main and staging names |
| Caddy.DomainsAre | go-service/internal/service/manager.go:2330-2336 | Exactly the main name, its www name and the staging name if there is one |
| Caddy.RoutesReadBack | go-service/internal/caddy/caddy.go:28-83 | Status reads back what Active, Suspended and Remove wrote, site and map file agree, and other services' files are untouched |
| Caddy.FailuresChangeNothingIff | go-service/internal/caddy/caddy.go:85-106 | A call that fails at a given point leaves the directory exactly as it was iff every existing file it reaches before that point can be read |
| Caddy.FailuresLoseOnlyUnreadableFiles | go-service/internal/caddy/caddy.go:85-106 | File by file: after a failure a file is gone iff it was reached and could not be read, and no other content changes |
| Caddy.UnreadableRoutesCanBeLost | go-service/internal/caddy/caddy.go:85-106 | A suspended service whose file cannot be read has no route at all after a rejected reload |
| Caddy.CallsPerformTheirWrites | go-service/internal/caddy/caddy.go:85-141 | The file writes of a call one after the other, roll back included, are what the call leaves |
| Caddy.DeathsLeaveOldOrNew | go-service/internal/caddy/caddy.go:85-141 | Whenever the process dies, each file has its old or its new content whole, or was unreadable and is gone, but for the one a roll back is just writing; other services are untouched |
| Caddy.RepeatingRepairs | go-service/internal/caddy/caddy.go:85-106 | Whatever a death leaves, the next call that completes leaves what it would have left without it |
| Caddy.DeathsCanTearThePair | go-service/internal/caddy/caddy.go:85-106 | A death between the two files leaves a site and a map file that disagree |
| Caddy.Adapter.Replace | go-service/internal/caddy/caddy.go:85-106 | For every failure point: both files new and loaded, or the roll back from that point, and which of them the server serves |
| Caddy.Adapter.RestoreFiles | go-service/internal/caddy/caddy.go:133-141 | The loop puts back the old contents of exactly the given paths |
| Caddy.Adapter.ReplaceFile | go-service/internal/caddy/caddy.go:108-131 | One file is replaced or removed as a whole, or untouched |
| Caddy.Adapter.Active | go-service/internal/caddy/caddy.go:28-41 | The site file has the hosts and the socket, the map file a line for each host, other services are untouched; or a roll back |
| Caddy.Adapter.Suspended | go-service/internal/caddy/caddy.go:51-54 | The suspension page for the hosts and no map file, other services untouched; or a roll back |
| Caddy.Adapter.Remove | go-service/internal/caddy/caddy.go:56-69 | Neither file, other services untouched, or a roll back; nothing is reloaded if there were none |
| Caddy.Adapter.Status | go-service/internal/caddy/caddy.go:71-83 | Unconfigured, proxied to a socket, or suspended; an unreadable file is an error |
| Dns.NoCnameBesideAddresses | go-service/internal/service/manager.go:1619-1660 | Any sequence of repairs and clean-ups, each cut off anywhere, never puts a CNAME beside address data at a name that is not itself a repaired apex |
| Dns.CutRequestsKeepAlone | go-service/internal/service/manager.go:1640-1658 | One repair, cut off after any number of requests, keeps that |
| Dns.CompleteCallRepairs | go-service/internal/service/manager.go:1619-1660 | An uncut call leaves apex A = [ip] and CNAME = [domain], and the next one has nothing to do |
| Dns.RepairsStayInTheDomain | go-service/internal/service/manager.go:1619-1660 | Wherever it is cut off, a repair touches no name but the domain and its www name |
| Dns.OldAaaaSurvivesIff | go-service/internal/service/manager.go:1641-1645 | Old AAAA data outlives a cut and then a complete repair iff the cut fell between the A record and its deletion |
| Dns.CleanupOnlyRemoves | go-service/internal/service/manager.go:1763-1803 | A clean-up, cut off anywhere, removes at most the old address and the old alias and adds nothing |
| Dns.CompleteCleanupCleans | go-service/internal/service/manager.go:1763-1803 | An uncut clean-up leaves exactly the other addresses, and no alias if that could be read |
| Dns.Server.CallDnsApi | go-service/internal/service/manager.go:1619-1660 | The requests built and sent, the zone left and both results, for every failure point; success leaves the wanted records and no old data beside them |
| Dns.Server.CleanupOldDns | go-service/internal/service/manager.go:1763-1803 | Likewise for the clean-up; success leaves every other address as often as before |
| Dns.Server.Send | go-service/internal/service/manager.go:1653-1658 | The loop stops at the first error |
| Dns.Server.Remaining | go-service/internal/service/manager.go:1774-1779 | The loop drops exactly the old address |
| Repository.EntriesHaveTheirOwnFiles | go-service/internal/state/repository.go:171-174 | Live records, tombstones and the bulk job never share a file |
| Repository.BackupsAreNoEntries | go-service/internal/state/repository.go:198-202 | A backup is no entry's file |
| Repository.TempsAreNoEntries | go-service/internal/state/repository.go:176-182 | No name that the temporary pattern can give is a backup, an entry's file or a name that List reads |
| Repository.ListedAreStored | go-service/internal/state/repository.go:96-114 | List finds exactly the stored IDs: no temporary, backup or bulk file, and none is missed |
| Repository.Repository.AtomicWrite | go-service/internal/state/repository.go:176-205 | For every name the pattern gives: an error keeps the old content, a crash keeps the old or the new, success stores the new, no other entry changes, and a healthy system means success |
| Repository.Repository.WriteVia | go-service/internal/state/repository.go:176-205 | The same on paths: beside the path only the temporary and the backup file are touched, and no temporary file is left behind but by a crash |
| Repository.Repository.WriteBackup | go-service/internal/state/repository.go:198-203 | The backup write touches only the backup, torn or not |
| Repository.Repository.Put | go-service/internal/state/repository.go:54-62 | A record is replaced atomically, with a backup of what it replaces |
| Repository.Repository.DeleteLive | go-service/internal/state/repository.go:64-72 | Only the live record goes, and a missing one is a success |
| Repository.Repository.PutTombstone | go-service/internal/state/repository.go:74-82 | A tombstone is replaced atomically |
| Repository.Repository.PutBulkUpgrade | go-service/internal/state/repository.go:161-169 | The bulk job is replaced atomically |
| Repository.Repository.Bury | go-service/internal/service/manager.go:738-747 | At every point of the hand-over, crashes included, the ID is stored as a record or as a tombstone |

## Left out

- LifecycleTheorems.PhaseIsAnExclusiveLock: says nothing between the erasure of a record under its owner and the next restart, where it is false (`TwoOwnersCanMeet`); `LifecycleRecovery.LockReturns` says when it holds again.
- LifecycleTheorems.RunningAgreesWithTheWorld: says nothing about uninterrupted service after a failed drain, which can leave the live slot naming a container that is already removed while the phase is failed; and after a record was erased under its owner it is promised again from the next Terminate on (`TerminateRestoresOrder`), not earlier.
- LifecycleSteps.InvKept: the first, read-only looks of upgrade, deployDomains and reconcile are not events, because the admitting section validates all of it again; only Provision's first look is, because its second section does not.
- Caddy.Adapter.Replace: assumes that writing back an old file succeeds; after a failed reload the server may serve the rejected files until the next reload, while the lifecycle machine knows a route only by its files. The method runs to its end; a death on the way is described by the writes it performs (`DeathsLeaveOldOrNew`), temporary files aside.
- BulkWorker.AtMostTwoUnfinished: one queued item per service does not hold, since recovery can queue an older item beside a newer one.
- Manager.Manager.NextHealthAttempt: the counter is unbounded; the wrap-around of the 64-bit sequence is not modelled.
- MatomoTheorems.AtMostOneSiteAndOnePerClearing: rests on the assumptions listed in `Matomo.dfy` (exclusive lock, fresh markers used by this module only, no reuse of an ID that an unanswered update names, errors classed as definite prove that nothing was sent).
- HTTP handlers, tokens, JSON and WebSocket polling: plumbing around the operations.
- Docker's, ZFS's and account commands, certificates and file ownership: steps that succeed or fail; containers change only on the controller's commands.
- Health probing over sockets: a pass or fail for the container generation that was started; socket names inside the route are not part of the lifecycle machine.
- Display names, health labels, timestamps, warnings, notifications, metrics and messages: no property depends on them; error texts are kept only where code compares them.
- The derived phase of records written before phases existed: such records are taken as already derived.
- TOML encoding and the bytes of the files: a record is a value, and a file holds one.
- The DNS worker's queue and status: an update equal to the active one is dropped without clearing a different pending one, so the latest enqueued update need not win; the machine lets any DNS status be written at any time.
- Retries, back-off, timeouts and the drain delay: a run may wait arbitrarily long between events.
- Regular-expression scanning of Caddy templates: a route is a structured value, and different slots give different sockets.
- The domain check, alias reset and error column of the Matomo code: they touch neither the ID, the marker nor the remote group.
- Listing in the import of IDs that several services would share, and row locks: a report and an assumption that no one else edits meanwhile.
- Certificate renewal, status aggregation, image pulling, configuration and the WHMCS pages: no protocol state.
