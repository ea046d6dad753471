# Verification of the kdop operator and its tunnel

This project models the reconcilers of the kdop operator, which drive containers on a Docker host from
Kubernetes objects, and the tunnel that carries connections to those containers. It proves what every run of
them keeps, where undisturbed runs lead, and exactly when they do what they are for.

`dafny verify dfyconfig.toml` checks everything.

## How the model is built

Every reconciler is written twice. A *model* module gives one pass as a function from the world before it to the
world after it; the properties are proved about that function and about runs of it. A *controller* module is the
program itself: classes whose fields are updated step by step, loops, early returns. Each of its methods is proved
to do to the world exactly what the model function of the same name says. The `Cluster` classes and the other classes
that hold a world stand for the API server and the Docker engine: they are the environment that the controllers call,
not program text. `TunnelTargets.BuildTargetIPs` is verified on its own, since the rest of the tunnel controller is
not part of this model.

The world holds the API objects (finalizers, deletion mark, status, resource version where it matters), a Docker
engine (`DockerEngine`: container names are unique, an ID stops resolving once its container is gone) and a clock.
What is not the controller's to decide is read from a *tape*: how each call ends (performed, not performed, or
performed with its reply lost) and, for jobs and deployments, which events land just before it (container exits,
clock ticks, user deletions, other writers, finalizers that come and go). Properties are stated for every tape.
When the tape runs out every further call is refused, which is a crash of the controller at that point.

| modules | what they hold |
|---|---|
| `Go`, `Text`, `Floats`, `Arithmetic` | fixed-width integers; the string functions in use; what is relied on of 64-bit floating point; gcd and lcm |
| `DockerEngine` | the Docker engine |
| `JobModel`, `JobDrift`, `JobSafety`, `JobRuns`, `JobProgress`, `JobRest`, `JobDeadline`, `JobForgets`, `JobTimes`, `JobPasses`, `JobController` | the DockerJob state machine |
| `ContainerSpecs`, `CPULimits`, `Adoption`, `AdoptionProofs` | specs, what counts as drift, the snapshot of a running container, and that snapshot and comparison agree |
| `ContainerModel`, `ContainerProofs`, `EnforcedContainers`, `ContainerPasses`, `ContainerController`, `ObserveRuns` | the DockerContainer enforce/observe loop |
| `Discovery`, `DiscoveryProofs`, `DiscoveryLimits`, `DefaultNames`, `DiscoveredObjects`, `DiscoveredRuns`, `HostController` | adoption of labelled containers |
| `DeploymentModel`, `DeploymentProofs`, `DeploymentLimits`, `DeploymentProgress`, `DeploymentConverges`, `DeploymentPanics`, `DeploymentChildren`, `DeploymentController` | replica control |
| `TunnelModel`, `RoundRobin`, `TunnelProofs`, `TunnelServer` | the state the tunnel server guards with its lock |
| `ByteStream`, `TunnelConn`, `TunnelHeader`, `TunnelTargets` | messages as a byte stream, the header line, the list of targets end to end |

Assumptions throughout: one worker per object, reads are fresh, the spec does not change during a run, text is
ASCII, the status is a subresource (so users do not write it).

## What the proofs found

Where a natural claim is false of the code, the code is kept as it is and the project proves when the claim holds.

- **Replica control can delete all replicas.** The children are sorted by creation time alone, children made by one
  scale-up share their second, and children that wait for their finalizer are still counted. A child can be deleted
  exactly if R others are not younger than it (`DeletableExactly`); a run exists that deletes all children of one
  second when one fewer is asked for (`SameSecondLosesAll`). If ties are always broken the same way, exactly the
  children from rank R on can be deleted (`FixedOrderExactly`).
- A negative replica count is accepted, deletes all children and then panics (`NegativeReplicasPanic`). Some pass panics
  exactly if the count is negative and not the smallest int32, which is its own negation (`PanicsExactly`).
- A CPU limit does not always survive being printed and parsed. Whether it does can be told from the integer alone, for
  every positive int64 (`SurvivesExactly`): below 8388608 cores it comes back one billionth short exactly if its
  significand lies in the lower part of a binade of cores and is rounded down by more than 2^28 (`ShortByOneExactly`),
  as for 1.001 cores (`JustOverOneCoreDrifts`). Whole cores, halves, quarters and so on survive
  (`WholeCoresSurvive`, `ExactCoresSurvive`), and so does the upper part of a binade (`UpperPartSurvives`).
- Adopting and then enforcing recreates a container exactly if its CPU limit does not survive, it has no restart policy
  (the API server then fills in one), or one limit is negative while the other is set (`AdoptThenEnforce`,
  `JustOverOneCoreIsRecreated`). A port of any other protocol comes back as a tcp port (`AnyProtocolBecomesTCP`), so the
  ports survive exactly if whatever is published is published over tcp (`PortsSurviveExactly`).
- Two labelled containers whose names are sanitised to the same one, for instance a.b and a-b (`DotAndDashClash`), keep
  every discovery pass from getting through, however its calls end and for as long as both are there, and only one of
  them is adopted (`ClashBlocksDiscovery`; when an undisturbed pass gets through: `SmoothPassSucceeds`). A resource that
  relies on its own name as the container name is not recognised: an undisturbed pass adds a second resource for its
  container exactly if the names that adoption takes up to that container are free (`DefaultNameIsAdoptedTwice`, for
  instance for a.b: `DottedNameIsAdoptedTwice`). If its name is already a sanitised one it occupies that name itself: no
  second resource appears and no pass over the host gets through, however its calls end (`SanitisedNameBlocks`). Where
  every resource names its container, none gets a second one (`ExplicitNamesStayUnique`).
- A secret upload that fails after the container was created is never repeated: the next pass starts the container
  without it and reports success (`SecretsAreSkipped`). A restarting container is sent a start by every pass
  (`RestartingIsStartedForEver`).
- A deletion leaves the container behind exactly if the resource is adopted and observed, or the resource or the Docker
  host could not be reached, or the removal was refused (`DeletionExactly`); in the last two cases the object still goes, and
  nobody tries again (`UnreachableHostKeepsContainer`). Deleting an observed resource before its first observe pass removes
  the container (`UnobservedDeletionRemoves`).
- A job container that was created but not started is never started nor replaced (`NeverStarted`). A deadline of more
  than 9223372036 seconds wraps around into the past (`DeadlineIsExact`, `HugeDeadlineIsOver`). A backoff limit of
  2^31 - 1 is no limit, because `Attempts` is an int32 (`UnlimitedRetries`). A retry does not look at the deadline.
  A job whose container exited with 0 can be run again (`SucceededRunsAgain`), but only if the final status write is lost,
  be it to another writer, and the TTL is over, or an outsider removed the container (`ForgottenOnlyIf`; exactly when, with
  only time passing: `ForgottenExactly`). A start whose reply is lost runs a container
  that Attempts does not count.
- The documentation of DockerJob lists `env`, `envVars`, volumes and resources; the code ignores them when it creates the
  container, and the model follows the code.
- The round-robin counter serves every pair fairly for ever exactly if lcm(T, S) divides 2^64 (`AlwaysFairExactly`).
- A file reader that is late can bring back targets that a newer read had replaced (`LateCommitGoesBack`);
  readers that do not overlap never do (`SeparateReadsGoForward`). The operator's empty target list is not taken as a push:
  while the last push is fresh it changes nothing, whatever the file says (`EmptyListIsNoPush`); when exactly the server
  serves the operator's list is `ServesOperatorsExactly`.

## Model

| member | source | states |
|---|---|---|
| JobRuns.AttemptsCountStarts | internal/controller/dockerjob_controller.go:112-215 | In every run from a new job, with any exits, failures, crashes and clock: the starts that took effect never exceed max(backoffLimit, 0) + 1 plus outside removals plus lost status writes plus starts whose reply was lost; with no lost write Attempts is the number of acknowledged starts, and if no start reply was lost either, of all containers started |
| JobRuns.NoOrphans | internal/controller/dockerjob_controller.go:74-102 | In every reachable state a container of the operator's is the job's own, under the container name or job-NAME, runs its image and command with the restart policy on-failure exactly if the job asks for OnFailure, and is covered by a DockerJob that still carries the finalizer, so none outlives its object |
| JobRuns.StatusShape | internal/controller/dockerjob_controller.go:129-215 | The stored status always has one of four shapes, even when status writes are lost: Running has neither exit code nor completion time, Succeeded exit code 0 and a completion time, Failed a completion time and no exit code 0 |
| JobRuns.FinishedIsFinal | internal/controller/dockerjob_controller.go:98-102 | Succeeded and Failed are absorbing over every run, and no container is started after either is stored, acknowledged or not |
| JobRuns.StartTimeNeverMoves | internal/controller/dockerjob_controller.go:122-138 | Without outside removals and lost writes no run moves a recorded StartTime |
| JobSafety.ReconcileKeeps | internal/controller/dockerjob_controller.go:56-103 | One whole pass, whatever its calls do and whatever lands between them, keeps the invariant behind the five results above |
| JobProgress.FailsAfterExactly | internal/controller/dockerjob_controller.go:188-215 | A job whose container fails every time is started exactly max(backoffLimit, 0) + 1 times and is then Failed: the cap is reached |
| JobProgress.UnlimitedRetries | internal/controller/dockerjob_controller.go:189-202 | With a backoff limit of 2^31 - 1 every failure is followed by another start, however many there are |
| JobProgress.FailingAttempt | internal/controller/dockerjob_controller.go:173-215 | One failing exit leads to the next attempt as long as Attempts is within the limit, and otherwise to Failed with the container's exit code |
| JobProgress.Succeeds | internal/controller/dockerjob_controller.go:180-186 | An exit code of 0 makes the job Succeeded with that code, without another start |
| JobProgress.FirstPass | internal/controller/dockerjob_controller.go:75-81 | The first undisturbed pass adds the finalizer and starts the container, and Attempts is 1 |
| JobRest.FinishedContainerIsKept | internal/controller/dockerjob_controller.go:222-231 | Over any run the container of a finished job stays until recorded CompletionTime plus TTL, and for ever without a TTL |
| JobRest.FinishingPassKeepsContainer | internal/controller/dockerjob_controller.go:173-231 | The pass that finishes the job does not remove its container before recorded CompletionTime plus TTL either, whether its status write is stored or lost |
| JobRest.RemovedWhenDue | internal/controller/dockerjob_controller.go:227-240 | The requeue delay is exactly the remaining time: the pass at that time or later removes the container, an earlier one does not touch it |
| JobRest.NeverStarted | internal/controller/dockerjob_controller.go:217-219 | A container that was created but not started stays as it is over every run, and the job with it |
| JobDeadline.DeadlineIsEnforced | internal/controller/dockerjob_controller.go:146-162 | On every tape: a pass whose inspect finds the container running after StartTime plus the deadline makes the job Failed and starts nothing, whatever happens around its calls and to the stop and the removal, unless a status write is lost |
| JobDeadline.OverdueContainerGoes | internal/controller/dockerjob_controller.go:151-153 | On every tape: after such a pass the inspected container is still there only if its removal was refused, and still runs only if its stop was refused too or a later event set its running flag; with the removal not refused and no container created by others there is none under the name |
| JobDeadline.OverdueIsRemoved | internal/controller/dockerjob_controller.go:151-161 | An undisturbed pass that finds the container overdue stores Failed and leaves no container under the job's name |
| JobForgets.ForgottenExactly | internal/controller/dockerjob_controller.go:180-186 | With only time passing around the calls: a container that was seen to exit with 0 is removed with the job unfinished exactly if the status write is lost, the time since completion has reached the TTL and the removal is not refused |
| JobForgets.ForgottenOnlyIf | internal/controller/dockerjob_controller.go:173-240 | On every tape, other writers included: a container that was seen to exit with 0 is gone after that pass with the job unfinished only if a status write was lost and the TTL is over, or an outsider removed the container |
| JobForgets.SucceededRunsAgain | internal/controller/dockerjob_controller.go:227-240 | With a TTL of zero or less and one lost status write, a job that succeeded is started again by the next pass |
| JobDeadline.DeadlineIsExact | internal/controller/dockerjob_controller.go:148 | The deadline in nanoseconds is the one asked for exactly if the seconds fit a 64-bit duration |
| JobDeadline.HugeDeadlineIsOver | internal/controller/dockerjob_controller.go:147-149 | With 9223372037 seconds the deadline has passed the moment the job starts |
| JobTimes.PassDates | internal/controller/dockerjob_controller.go:129-210 | On every tape: a start or completion time that a pass records is the time of recording in whole seconds, within the pass |
| JobTimes.TimesStayInOrder | internal/controller/dockerjob_controller.go:56-231 | In every run StartTime is at most CompletionTime and neither lies in the future |
| JobPasses.MissingIsStarted | internal/controller/dockerjob_controller.go:122-138 | Without a container an undisturbed pass starts one, records Running, the time, the next attempt and the container's ID and nothing else, and asks to be called in five seconds |
| JobPasses.RunningIsLeft | internal/controller/dockerjob_controller.go:165-171 | A running container that is not overdue is not touched, and its ID is recorded |
| JobPasses.OverdueEnds | internal/controller/dockerjob_controller.go:147-161 | An overdue one is removed and nothing else on the host changes; the job is Failed with the container and the time, and the TTL is looked at |
| JobPasses.ExitIsFinal | internal/controller/dockerjob_controller.go:173-215 | Exit code 0, or any code past the backoff limit, ends the job with that code, the container and the time; the answer and the removal follow the TTL |
| JobPasses.FailureIsRetried | internal/controller/dockerjob_controller.go:189-209 | Within the limit the failed container is replaced by a new one, the attempt is counted, code and completion time are cleared and the start time stays |
| JobPasses.OthersAreLeft | internal/controller/dockerjob_controller.go:217-219 | A container that has neither started nor exited is left alone and looked at again in five seconds |
| JobPasses.DeletedJobGoes | internal/controller/dockerjob_controller.go:84-95 | An undisturbed pass over a job that is being deleted leaves neither the object nor a container under its name |
| JobPasses.NoClientNothingDone | internal/controller/dockerjob_controller.go:60-71 | On every tape: a pass that cannot read the job or gets no Docker client changes nothing |
| JobPasses.NoImageNoContainer | internal/controller/dockerjob_controller.go:243-282 | Without its image no container is created, and the pass fails |
| JobPasses.FailedRetryIsFinal | internal/controller/dockerjob_controller.go:193-200 | On every tape: a retry that cannot start its container stores Failed with the exit code, unless that write is lost |
| JobPasses.RefusedCleanupIsReported | internal/controller/dockerjob_controller.go:235-239 | A refused removal at the end of the TTL is reported as an error |
| JobPasses.RefusedRemovalKeepsJob | internal/controller/dockerjob_controller.go:85-89 | A refused removal keeps the finalizer of a job that is being deleted, and is reported |
| JobController.DockerJobReconciler.ReconcileJob | internal/controller/dockerjob_controller.go:56-103 | The pass as a program does exactly what the model's pass does |
| JobController.DockerJobReconciler.Sync | internal/controller/dockerjob_controller.go:112-220 | The dispatch on the inspected container |
| JobController.DockerJobReconciler.SyncMissing | internal/controller/dockerjob_controller.go:122-138 | Create, start, then count the attempt and record the start time |
| JobController.DockerJobReconciler.SyncRunning | internal/controller/dockerjob_controller.go:146-171 | The deadline check, and the refresh of a running job |
| JobController.DockerJobReconciler.SyncExited | internal/controller/dockerjob_controller.go:173-215 | Success, retry or failure by exit code and attempts |
| JobController.DockerJobReconciler.RetryExited | internal/controller/dockerjob_controller.go:191-209 | Removal, new start, and the status after it |
| JobController.DockerJobReconciler.HandleTTLCleanup | internal/controller/dockerjob_controller.go:222-241 | Requeue or removal after the TTL |
| JobController.DockerJobReconciler.CreateAndStartContainer | internal/controller/dockerjob_controller.go:243-286 | Pull, create, start; an error of either leaves what was done |
| ContainerProofs.EnforceSync | internal/controller/dockercontainer_controller.go:110-149 | From any Docker state, an enforcing sync that succeeds leaves a container of that name that needs no recreation, and touches no other; it is running, with its secrets if this sync created it, except for one found matching but restarting |
| EnforcedContainers.SyncLeavesMatching | internal/controller/dockercontainer_controller.go:122-148 | On every tape: a successful enforcing sync keeps the container exactly if it runs the image and command of the spec, has its literal environment, its restart policy up to case and its limits; otherwise it leaves a new one that has those and, in terms of the spec alone, exactly the published ports, the mounts, the network mode, the resolved variables and the default restart policy |
| EnforcedContainers.OutdatedExactly | internal/controller/dockercontainer_controller.go:467-503 | The comparison asks for a new container exactly if image, command, environment, restart policy or limits differ in the sense of the previous row |
| EnforcedContainers.SyncReports | internal/controller/dockercontainer_controller.go:273-290 | The successful sync records the ID of the container under the name and that it runs, and writes nothing else |
| EnforcedContainers.VariablesResolved | internal/controller/dockercontainer_controller.go:355-370 | Behind the literal entries stand the variables in order, each with its value or the value of its secret |
| EnforcedContainers.PortsAreBound | internal/controller/dockercontainer_controller.go:331-353 | The ports of a spec parse exactly if every entry can be read, and then every container port has exactly the bindings of its entries, in order, on every address |
| EnforcedContainers.PlainEntry | internal/controller/dockercontainer_controller.go:340-349 | The text h:n stands for tcp port n on host port h, and for nothing if there is no port n |
| EnforcedContainers.RangeEntry | internal/controller/dockercontainer_controller.go:340-349 | The text h:a-b stands for the range, and for nothing if it is empty or too large |
| EnforcedContainers.UnreadableEntry | internal/controller/dockercontainer_controller.go:340-347 | A text without a colon, or without a number after it, cannot be read; nothing after the colon is port 0 |
| EnforcedContainers.MappingIsRead | internal/controller/dockercontainer_adopt.go:140-159 | A port or a range written by adoption is read back as that, over tcp |
| ContainerPasses.SyncCalls | internal/controller/dockercontainer_controller.go:131-146 | A successful enforcing sync makes exactly these changing calls in this order: stop and remove the old container if it does not match, create, copy every secret, start |
| ContainerPasses.ImageComesFirst | internal/controller/dockercontainer_controller.go:188-210 | Nothing is created unless the pull secret was found and the image was there or could be pulled |
| ContainerPasses.PassLeavesMatching | internal/controller/dockercontainer_controller.go:64-108 | A successful pass over an enforced resource leaves a matching container under the container name, or under the name of the resource if it has none |
| ContainerPasses.FinalizerComesFirst | internal/controller/dockercontainer_controller.go:90-93 | Until the finalizer is stored a pass does nothing but store it |
| ContainerPasses.MissingIsDone | internal/controller/dockercontainer_controller.go:67-70 | Nothing is done for a resource that does not exist, without an error |
| ContainerPasses.NoClientNothingDone | internal/controller/dockercontainer_controller.go:95-99 | Without a Docker client a pass over a live resource fails and changes nothing |
| ContainerPasses.ObserveReports | internal/controller/dockercontainer_controller.go:161-186 | A successful observe pass records Adopted and the container's ID and state, or that there is none |
| ContainerPasses.TunnelsWaitForContainer | internal/controller/dockercontainer_controller.go:304-308 | If the removal of the container is refused, its tunnels stay |
| ContainerProofs.EnforceSettles | internal/controller/dockercontainer_controller.go:132-148 | Once the container matches and runs, no sync makes a create, start, stop or remove call, however its calls end |
| ContainerProofs.EnforceTwice | internal/controller/dockercontainer_controller.go:110-149 | After a successful sync a second one, with any outcomes, changes nothing on the host |
| ContainerProofs.RequestMeetsSpec | internal/controller/dockercontainer_controller.go:236-254 | The container that create asks for never needs recreation by the comparison that follows, whatever the image adds to it |
| ContainerProofs.ResolvedEnv | internal/controller/dockercontainer_controller.go:355-370 | Every literal entry of the spec is in the resolved environment, and resolving changes nothing |
| ContainerProofs.SmoothSync | internal/controller/dockercontainer_controller.go:110-149 | With every call succeeding a sync fails exactly if the container matches but cannot be started as it is, or does not match and the spec has a malformed port or a missing secret |
| ContainerProofs.RestartingIsStartedForEver | internal/controller/dockercontainer_controller.go:140-146 | A matching container that is restarting gets one start call from every sync and stays restarting |
| ContainerProofs.SecretsAreSkipped | internal/controller/dockercontainer_controller.go:259-263 | If an upload fails after create, the next sync starts the container without the secret and succeeds |
| ContainerProofs.SmoothDeletion | internal/controller/dockercontainer_controller.go:292-329 | Undisturbed deletion removes the container, the ten numbered tunnels of both names and the old-style tunnel, and nothing else |
| ContainerProofs.DeletionExactly | internal/controller/dockercontainer_controller.go:75-87 | After a pass over a resource being deleted the container is there exactly if it was and the resource is adopted and observed, or the read of the resource or of its host was not done, or the removal was refused; a successful pass lets the object go in every case |
| ContainerProofs.UnreachableHostKeepsContainer | internal/controller/dockercontainer_controller.go:77-84 | On every tape on which the Docker client cannot be made and the finalizer is written away, the object goes and the container stays |
| ContainerProofs.UnobservedDeletionRemoves | internal/controller/dockercontainer_adopt.go:80-82 | On every tape on which the removal takes effect, an observed resource deleted before its first observe pass takes its container along |
| ContainerController.DockerContainerReconciler.ReconcileContainer | internal/controller/dockercontainer_controller.go:64-108 | The pass as a program does exactly what the model's pass does |
| ContainerController.DockerContainerReconciler.SyncContainer | internal/controller/dockercontainer_controller.go:110-149 | List, search, then observe, create or enforce |
| ContainerController.DockerContainerReconciler.Enforce | internal/controller/dockercontainer_controller.go:127-148 | Inspect, then recreate or start and report |
| ContainerController.DockerContainerReconciler.Observe | internal/controller/dockercontainer_controller.go:161-186 | Only a status write, with the hash of the snapshot |
| ContainerController.DockerContainerReconciler.Create | internal/controller/dockercontainer_controller.go:188-257 | Image, ports, environment, then create, failing at the first error |
| ContainerController.DockerContainerReconciler.Launch | internal/controller/dockercontainer_controller.go:259-271 | Uploads, start, and the status |
| ContainerController.DockerContainerReconciler.ResolveEnv | internal/controller/dockercontainer_controller.go:355-370 | The loop over literal entries, variables and secrets |
| ContainerController.DockerContainerReconciler.DeleteExternalResources | internal/controller/dockercontainer_controller.go:292-329 | The nested loops over the tunnel names |
| ContainerController.FindContainerByName | internal/controller/dockercontainer_controller.go:151-159 | The first entry of the list that carries the name, or none |
| ContainerController.FoundIsNamed | internal/controller/dockercontainer_controller.go:151-159 | Whatever the order of the list, the search finds the container of that name, and finds one exactly if it exists |
| ContainerSpecs.NeedsRecreateCheck | internal/controller/dockercontainer_controller.go:467-503 | The chain of comparisons decides the drift predicate |
| ContainerSpecs.ParsePortsLoop | internal/controller/dockercontainer_controller.go:331-353 | The loop succeeds exactly if every port text is well formed, and exposes exactly the ports that have bindings |
| ContainerSpecs.OwnedByDeploymentLoop | internal/controller/dockercontainer_adopt.go:70-78 | True exactly if some controlling owner is a DockerDeployment |
| ContainerSpecs.ManagementMode | internal/controller/dockercontainer_adopt.go:56-68 | The mode of the spec, and without one Enforce exactly for containers of a deployment |
| Adoption.RuntimeSnapshot | internal/controller/dockercontainer_adopt.go:84-138 | The spec filled in step by step is the snapshot that the adoption results are about |
| AdoptionProofs.MemoryRoundTrip | internal/controller/dockercontainer_adopt.go:197-203 | Every int64 memory limit survives being printed and parsed |
| AdoptionProofs.UnitMemory | internal/controller/dockercontainer_controller.go:441-465 | A number with k, m or g in either case is that many kibibytes, mebibytes or gibibytes, modulo 2^64 |
| AdoptionProofs.MemoryIgnoresBlanks | internal/controller/dockercontainer_controller.go:442 | Blanks around a memory limit do not matter |
| AdoptionProofs.NoMemoryLimit | internal/controller/dockercontainer_controller.go:460-463 | An empty text, or one with a character that has no place in a limit, is no limit |
| AdoptionProofs.MebibytesAreWritten | internal/controller/dockercontainer_adopt.go:197-203 | Whole mebibytes are written with the unit m |
| AdoptionProofs.AdoptThenEnforce | internal/controller/dockercontainer_adopt.go:84-138 | Enforcing a snapshot recreates its container exactly if the container has no restart policy, which the API server then fills in, or one limit is negative and the other one set, or the CPU limit is one of those that do not survive |
| AdoptionProofs.NeverRecreates | internal/controller/dockercontainer_controller.go:467-503 | For every inspect reply with non-negative limits, a restart policy and no CPU limit or one that survives, the adopted spec needs no recreation |
| AdoptionProofs.JustOverOneCoreIsRecreated | internal/controller/dockercontainer_adopt.go:189-195 | A container limited to 1.001 cores is recreated when it is adopted and then enforced |
| AdoptionProofs.SnapshotIsCanonical | internal/controller/dockercontainer_adopt.go:108-159 | The snapshot, and so the input of its hash, does not depend on the iteration order of the port map nor on the order of the environment list |
| AdoptionProofs.PortsSurviveExactly | internal/controller/dockercontainer_adopt.go:140-159 | The snapshot's ports parse and give each container port exactly the multiset of its published host ports if and only if every port with a published host port is a tcp port |
| AdoptionProofs.PortsRoundTrip | internal/controller/dockercontainer_controller.go:331-353 | Where everything published is tcp the parsed bindings are, besides, all on every address |
| AdoptionProofs.AnyProtocolBecomesTCP | internal/controller/dockercontainer_adopt.go:154 | A single published port of any protocol is read back as the tcp port of that number |
| AdoptionProofs.AdoptedNameIsWellFormed | internal/controller/dockercontainer_adopt.go:205-231 | The sanitised name of any container is a legal object name: never empty, only letters, digits and single inner dashes |
| AdoptionProofs.AdoptedNameIsStable | internal/controller/dockercontainer_adopt.go:205-231 | A name that is already of that form is kept |
| AdoptionProofs.AdoptedNameKeepsLetters | internal/controller/dockercontainer_adopt.go:205-231 | The sanitised name has the letters and digits of the container's name in lower case and in order; a name without any becomes adopted-container |
| AdoptionProofs.SnapshotNames | internal/controller/dockercontainer_adopt.go:84-88 | The snapshot is named like the inspect reply, or else like the list entry, without the slash |
| Adoption.CollectPortMappingsLoop | internal/controller/dockercontainer_adopt.go:140-159 | The nested loops and the sort compute the mappings of the port map |
| Adoption.AdoptedObjectNameLoop | internal/controller/dockercontainer_adopt.go:205-231 | The loop with its flag computes the sanitised name |
| CPULimits.SurvivesExactly | internal/controller/dockercontainer_adopt.go:189-195 | For every positive int64 limit: printing, parsing, multiplying and truncating give it back if and only if an integer condition on it holds, which compares the rounding error of the number of cores with the grid of the product |
| CPULimits.ShortByOneExactly | internal/controller/dockercontainer_controller.go:430-434 | Every limit below 8388608 cores comes back as it was or one billionth short, and when which |
| CPULimits.WholeCoresSurvive | internal/controller/dockercontainer_adopt.go:191-192 | A limit of whole cores below 2^53 billionths survives |
| CPULimits.ExactCoresSurvive | internal/controller/dockercontainer_adopt.go:194 | So does a limit of whole halves, quarters and so on down to 512ths of a core |
| CPULimits.UpperPartSurvives | internal/controller/dockercontainer_controller.go:430-434 | So does every limit below 2^53 billionths in the upper part of a binade of cores, where the product has a coarser grid than the quotient |
| CPULimits.JustOverOneCoreDrifts | internal/controller/dockercontainer_controller.go:430-434 | 1001000000 billionths of a core come back as 1000999999 |
| CPULimits.TextIsRead | internal/controller/dockercontainer_controller.go:430-434 | A text that stands for a whole number of billionths below 2^53 is read as that many |
| ObserveRuns.ObservedIsLeftAlone | internal/controller/dockercontainer_controller.go:119-120 | Once observed, and while the mode stays Observe, no reconcile, discovery pass or deletion of the resource makes a call that could change the host, and Adopted is never reset, over every run |
| ObserveRuns.ObserveAdopts | internal/controller/dockercontainer_controller.go:167-185 | A completed observe pass sets Adopted, so the hypothesis of the previous row holds from then on |
| ObserveRuns.ObserveKeepsSettled | internal/controller/dockercontainer_controller.go:182-185 | An observe pass, however its calls end, gives the next discovery pass nothing to correct: the two controllers write the same hash |
| DiscoveryProofs.DiscoverKeeps | internal/controller/dockerhost_controller.go:92-170 | No discovery pass, with any outcomes and listing orders, gives a container that some resource names a second one that names it, resets Adopted, or makes a call that could change the host |
| DiscoveryProofs.DiscoverySettles | internal/controller/dockerhost_controller.go:122-170 | Given free, distinct names, two undisturbed passes leave nothing to write, whether or not create stores the status |
| DiscoveryProofs.SettledIsIdle | internal/controller/dockerhost_controller.go:132-165 | A settled host causes no write in any listing order and with any outcomes |
| DiscoveryLimits.SmoothPassSucceeds | internal/controller/dockerhost_controller.go:168-169 | An undisturbed pass gets through exactly if the object names that adoption would take are free and distinct |
| DiscoveryLimits.DiscoverNeedsFreeNames | internal/controller/dockerhost_controller.go:92-170 | On every tape: a pass that gets through found those names free and distinct |
| DiscoveryLimits.ClashBlocksDiscovery | internal/controller/dockercontainer_adopt.go:205-231 | Two labelled containers whose names are sanitised to the same one, both unclaimed or one unclaimed and the name taken, keep every pass from getting through, on every tape; at most one of them is claimed, and the same holds again after the pass |
| DiscoveryLimits.TakenNameBlocks | internal/controller/dockerhost_controller.go:168-169 | A labelled, unclaimed container whose object name is taken keeps every pass from getting through, on every tape, and stays unclaimed |
| DefaultNames.DefaultNameIsAdoptedTwice | internal/controller/dockerhost_controller.go:134 | An undisturbed pass adds a second resource for the container of a resource that leaves the container name to its own name exactly if the object names that adoption takes up to that container are free and distinct |
| DefaultNames.SanitisedNameBlocks | internal/controller/dockerhost_controller.go:168-169 | If the name of such a resource is already a sanitised one, on every tape no second one appears, the pass does not get through, and the same holds again after it |
| DefaultNames.DottedNameIsAdoptedTwice | internal/controller/dockercontainer_adopt.go:205-231 | A lone container a.b with a resource a.b gets a second resource a-b |
| DefaultNames.ExplicitNamesStayUnique | internal/controller/dockerhost_controller.go:92-170 | Where every resource of the host names its container, no pass, however its calls end, makes two resources stand for one container |
| DiscoveredObjects.DiscoverAdds | internal/controller/dockerhost_controller.go:134-170 | On every tape: every resource that a pass adds is made for a container with the label kdop.io/adopt set to true, is in Observe mode, has no owner, keeps image, command, environment, restart policy, memory limit and tcp ports of the container, asks for nothing else, and carries the two marks |
| DiscoveredObjects.LabelledAreAdopted | internal/controller/dockerhost_controller.go:92-120 | On every tape: if a pass gets through, every container with the label has a resource that names it |
| DiscoveredObjects.RefreshMarks | internal/controller/dockerhost_controller.go:140-165 | On every tape: a refresh writes the two marks, Adopted and the hash and nothing else, and all of them if it succeeds |
| DiscoveredRuns.DiscoveredIsLeftAlone | internal/controller/dockerhost_controller.go:92-170 | From the pass that adds a resource on, over every run in which nobody edits its mode or deletes it before it was observed once, no reconcile, discovery pass or deletion of it makes a call that could change the host |
| HostController.DockerHostReconciler.DiscoverAdoptableContainers | internal/controller/dockerhost_controller.go:92-120 | The loop over the listed containers does what the model's pass does |
| HostController.DockerHostReconciler.UpsertAdoptedContainer | internal/controller/dockerhost_controller.go:122-170 | The search for a claim, then refresh or create |
| HostController.DockerHostReconciler.RefreshClaim | internal/controller/dockerhost_controller.go:135-164 | Two conditional writes, object first, status second |
| HostController.DockerHostReconciler.MarkAdopted | internal/controller/dockerhost_controller.go:135-151 | Label and annotation are set, and the flag tells whether anything changed |
| HostController.FirstClaimLoop | internal/controller/dockerhost_controller.go:132-134 | The first listed object that claims the container |
| DeploymentProofs.OldestAreSafe | internal/controller/dockerdeployment_controller.go:79-107 | Over every run of passes, failures, crashes, user deletions and finalizers: a child that fewer than R children may be listed before is never deleted by the controller; for any way of breaking ties, or for a fixed one |
| DeploymentLimits.DeletableExactly | internal/controller/dockerdeployment_controller.go:150-152 | With nothing known of ties, some run deletes a child exactly if R others are not younger than it |
| DeploymentLimits.FixedOrderExactly | internal/controller/dockerdeployment_controller.go:150-152 | With ties always broken the same way, some run deletes a child exactly if R others come before it |
| DeploymentLimits.OneRunDeletesAll | internal/controller/dockerdeployment_controller.go:96-107 | Where finalizers hold the children back, one single run deletes every child that can be deleted at all, because the marked ones are still counted |
| DeploymentLimits.SameSecondLosesAll | internal/controller/dockerdeployment_controller.go:96-107 | Children of the same second can all be deleted when one fewer is wanted |
| DeploymentProgress.PassSucceeds | internal/controller/dockerdeployment_controller.go:53-134 | A pass over a live deployment is successful whenever its calls are performed and acknowledged, its list calls return what is stored and the random names do not clash |
| DeploymentProgress.Converges | internal/controller/dockerdeployment_controller.go:79-107 | From any state, such a pass, then events that end all pending deletions, then another such pass leave exactly R children, none on its way out |
| DeploymentConverges.CanSettle | internal/controller/dockerdeployment_controller.go:40-196 | From every live state there is a run, with suffixes of five letters or digits, that leaves exactly R children, none on its way out, as long as the objects there are and twice R fit into the 36^5 names |
| DeploymentConverges.UndisturbedExists | internal/controller/dockerdeployment_controller.go:190-196 | The undisturbed passes of the rows above exist whenever there are names left: listings and fresh suffixes can always be had |
| DeploymentProgress.SettledStays | internal/controller/dockerdeployment_controller.go:80-96 | From then on no run without outside deletions creates or deletes a child, whether or not its passes succeed |
| DeploymentProgress.PassReaches | internal/controller/dockerdeployment_controller.go:82-107 | One successful pass leaves at most R children that stay, and exactly R if there were not too many |
| DeploymentProgress.SettledCount | internal/controller/dockerdeployment_controller.go:68-80 | A settled deployment has the replicas it asks for, and one if it does not say |
| DeploymentProgress.DeletingIsLeft | internal/controller/dockerdeployment_controller.go:57-66 | A deployment that is being deleted or does not exist is left alone |
| DeploymentChildren.ContainerNamesDiffer | internal/controller/dockerdeployment_controller.go:157-181 | In every run no two children of a deployment ask for the same container name, none leaves it to a default, and each is named after the deployment and has the labels and the spec of the template, apart from the container name and the mode, which are given |
| DeploymentChildren.ModeIsResolved | internal/controller/dockerdeployment_controller.go:183-185 | An empty template mode becomes Enforce, which is what an owned child with an empty mode resolves to |
| DeploymentChildren.AvailableIsRunning | internal/controller/dockerdeployment_controller.go:109-131 | After a successful pass that nothing interferes with, the stored number of available replicas is the number of running children |
| DeploymentChildren.KnownCountIsNotWritten | internal/controller/dockerdeployment_controller.go:110-134 | If the stored number is that of the running children, the end of a pass writes nothing and succeeds once it has listed them |
| DeploymentPanics.PanicsExactly | internal/controller/dockerdeployment_controller.go:96-100 | Some pass indexes out of range exactly if the replica count is negative and not the smallest int32 |
| DeploymentPanics.PassPanics | internal/controller/dockerdeployment_controller.go:79-107 | No tape at all makes a pass panic with any other count |
| DeploymentPanics.NegativeReplicasPanic | internal/controller/dockerdeployment_controller.go:97-100 | An undisturbed pass with a negative count deletes every child and then indexes out of range |
| DeploymentController.DockerDeploymentReconciler.ReconcileDeployment | internal/controller/dockerdeployment_controller.go:53-134 | The pass as a program does exactly what the model's pass does |
| DeploymentController.DockerDeploymentReconciler.ListOwnedContainers | internal/controller/dockerdeployment_controller.go:136-155 | Filter by controller, then sort by creation time |
| DeploymentController.DockerDeploymentReconciler.AddChildren | internal/controller/dockerdeployment_controller.go:82-95 | The scale-up loop stops at the first failure |
| DeploymentController.DockerDeploymentReconciler.RemoveChildren | internal/controller/dockerdeployment_controller.go:96-107 | The scale-down loop takes children from the end of the list, stops at the first failure and panics past the front |
| DeploymentController.DockerDeploymentReconciler.CountAvailable | internal/controller/dockerdeployment_controller.go:109-133 | The count over a fresh list, and the status write only if it changed |
| DeploymentController.FilterOwned | internal/controller/dockerdeployment_controller.go:142-148 | The children this deployment controls, in the order listed |
| DeploymentController.ConstructContainer | internal/controller/dockerdeployment_controller.go:157-188 | Name, labels, container name and mode of a new child |
| RoundRobin.FairBeforeWrap | internal/tunnel/server.go:103-107 | While the counter does not wrap, any lcm(T, S) connections in a row use each pair (t, s) with t congruent to s modulo gcd(T, S) exactly once and no other pair |
| RoundRobin.TargetsShareEqually | internal/tunnel/server.go:103-107 | Among them each target is chosen exactly lcm(T, S) / T times |
| RoundRobin.AlwaysFairExactly | internal/tunnel/server.go:107 | Every window is fair, wherever the 64-bit counter stands, exactly if lcm(T, S) divides 2^64 |
| Arithmetic.CommonSolution | internal/tunnel/server.go:103-106 | Two remainders that agree modulo the gcd have a common solution: the counter value that reaches a pair |
| TunnelProofs.ConnectionsAreBalanced | internal/tunnel/server.go:91-108 | The server hands its next lcm(T, S) connections to the targets and sessions that the fair sequence names |
| TunnelProofs.SessionsAreOpen | internal/tunnel/server.go:179-197 | Over every interleaving the session list holds exactly the open sessions, each once |
| TunnelProofs.PushOutranksFile | internal/tunnel/server.go:204-274 | For every interleaving of pushes, reads, late commits, file writes, sessions and connections: while the last push is less than two minutes old the active targets are the pushed ones |
| TunnelProofs.PushIsServed | internal/tunnel/server.go:218-222 | So after any events a server that started without a push serves every push while it is fresh |
| TunnelProofs.PushLastsTwoMinutes | internal/tunnel/server.go:213-270 | For two minutes after a push its targets are served whatever the file says, and after that those of the file |
| TunnelProofs.AgreeingFileIsServed | internal/tunnel/server.go:262-274 | A file that says what was pushed last is served at any time |
| TunnelProofs.FileWinsLater | internal/tunnel/server.go:242-274 | After that, a read that is committed with no push in between makes the server serve what the file said when it was read |
| TunnelProofs.LateCommitGoesBack | internal/tunnel/server.go:242-259 | A reader that commits late brings back older targets |
| TunnelProofs.SeparateReadsGoForward | internal/tunnel/server.go:242-273 | If no read begins while another one is under way, what is served only moves forward through the contents the file has had |
| TunnelServer.Server.SelectRoute | internal/tunnel/server.go:91-108 | The locked selection: dropped without session or target and without moving the counter, else the pair of the counter |
| TunnelServer.Server.Register | internal/tunnel/server.go:179-182 | Appends the session |
| TunnelServer.Server.Unregister | internal/tunnel/server.go:186-194 | Removes the first equal session and keeps the order of the others |
| TunnelServer.Server.HandleReload | internal/tunnel/server.go:204-229 | A POST does what the reload function says (with targets a push, without any a look at the file), any other method changes nothing |
| TunnelServer.Server.LoadTargetsFromFile | internal/tunnel/server.go:242-274 | An unreadable file changes nothing, else its targets are committed |
| TunnelServer.Server.CommitTargets | internal/tunnel/server.go:259-274 | The locked commit: a fresh push hides a file that says something else |
| TunnelServer.TargetsEqual | internal/tunnel/server.go:276-286 | True exactly if the lists are equal |
| TunnelServer.ParseFile | internal/tunnel/server.go:249-257 | The file route, which trims first, gives the same targets as the push route for every text |
| TunnelServer.KeepTargets | internal/tunnel/server.go:213-217 | The loop keeps the trimmed, non-empty parts in order |
| Text.FieldsTrimSpace | internal/tunnel/server.go:249-257 | Trimming a whole text before splitting it changes nothing, for any text at all |
| TunnelTargets.TextReadsBackExactly | internal/controller/dockerservice_controller.go:220-221 | Splitting and trimming the sorted, joined list gives the sorted list back exactly if every entry is non-empty, comma-free and without outer blanks |
| TunnelTargets.BuildTargetIPs | internal/controller/dockerservice_controller.go:164-172 | One address and port for every container that has an address, in order |
| TunnelTargets.TargetsInOrder | internal/controller/dockerservice_controller.go:164-172 | The targets are the non-empty addresses in their order, each followed by a colon and the port of the service as a number |
| TunnelTargets.ServesOperatorsExactly | internal/tunnel/server.go:210-226 | After the operator's reload request the server serves exactly the operator's targets, sorted, if and only if some container has an address, or there is nothing to serve: already now if the last push is fresh or the file cannot be read, by the file otherwise |
| TunnelTargets.ConnectionReachesContainer | internal/tunnel/client.go:82-103 | End to end, whatever the file says: the client dials the address of one of the operator's containers, the one whose turn it is, and sees the payload from its first byte |
| TunnelTargets.DialsAddressAndPort | internal/controller/dockerservice_controller.go:164-172 | End to end: the text that is dialled, cut at its colon, is the address of one of the operator's containers and the port of the service |
| TunnelTargets.EmptyListIsNoPush | internal/controller/dockerservice_controller.go:448-470 | When no container has an address the query is empty, and while the last push is fresh the request changes nothing at all, whatever the file says |
| ByteStream.ReadTakesNext | internal/tunnel/conn.go:39-54 | One read hands out the next bytes of the concatenated messages, at least one if there is room and anything is left, and fails only at the end |
| ByteStream.ReadsAreConsecutive | internal/tunnel/conn.go:39-54 | For any messages, empty ones included, and any buffer sizes, successive reads are consecutive pieces of the concatenation: nothing lost, repeated or reordered |
| ByteStream.ReadsReachTheEnd | internal/tunnel/conn.go:39-54 | As many reads into non-empty buffers as there are bytes hand out all of them |
| ByteStream.PipeDelivers | internal/tunnel/conn.go:56-61 | What is written at one end is read at the other, however it was cut up |
| ByteStream.EagerEndIsLost | internal/tunnel/conn.go:47-52 | Why the library's promise is needed: bytes that came along with the end of their message would be lost |
| TunnelConn.WebSocketConn.Read | internal/tunnel/conn.go:39-54 | The recursive read with its reader field and the buffer filled in place does what the stream function says, writes nothing past its result, and terminates by the number of pending messages |
| TunnelConn.WebSocketConn.Write | internal/tunnel/conn.go:56-61 | One message per write, reported in full or not at all |
| TunnelHeader.HeaderExactly | internal/tunnel/client.go:82-100 | The client finds a target and a payload exactly if the stream is that target, a newline and that payload, with no newline in the target and at most 256 bytes of it |
| TunnelHeader.RejectedExactly | internal/tunnel/client.go:94-97 | A stream is rejected exactly if its first 257 bytes hold no newline, and ends early exactly if it is shorter and has none |
| TunnelHeader.ReadTarget | internal/tunnel/client.go:82-100 | The byte-by-byte loop, and where it leaves the stream |

## Left out

- Message texts, events, logging, requeue intervals of the container and host controllers, and which IPv4 address a container reports (taken from an unordered map).
- Health checks, the health and address fields of a status, link aliases of containers, references by ID prefix.
- Docker and Kubernetes client internals, TLS, image pulling and tar upload beyond success or failure; effects of a call that take place after its reply.
- Several Docker hosts in one world, renaming of containers, removal of our finalizers by hand, edits of a spec during a run, stale caches, defaulting by the API server.
- Events between the calls of one container, host or discovery pass: they are modelled between passes only, while calls inside a pass may fail in every way. Jobs and deployments have events between calls as well.
- JSON and SHA-256 in the spec hash: an arbitrary function of the spec; equality of its inputs is proved.
- 64-bit floating point: rounding, printing and parsing are parameters with the contract of IEEE 754 round-to-nearest, ties to even, for an unbounded exponent; NaN and infinities are not modelled, and conversion of a float out of range follows amd64.
- Text: ASCII only; `strings.ToLower` and `strings.TrimSpace` beyond ASCII are not part of this model.
- The random suffix of a child: any text, given from outside, and create fails on a clash. Spec fields of a child other than name, labels, container name and mode are copied.
- Deletion of a deployment and garbage collection of its children: deletions by others are events, their cause is not modelled.
- The controller reference set on a child cannot fail in the model; namespaces and schemes are not part of it.
- The choice of target containers by label selector, the Service, ConfigMap and Deployment that run the tunnel server, and the container that runs the tunnel client.
- yamux is a reliable stream per connection, gorilla/websocket a sequence of whole messages; deadlines, pings and the copying of the payload are left out.
- Authentication of tunnel clients and the gateway proxy.
- Aliasing of the backing array when a session is removed in place: the list is a value.
- DeploymentProofs.OldestAreSafe: says nothing of children that outsiders delete, only that the controller does not.
- JobRuns.AttemptsCountStarts: the cap is claimed below 2^31, where Attempts still fits; UnlimitedRetries shows what happens at the largest backoff limit.
