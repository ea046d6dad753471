/** What one undisturbed pass of the DockerJob controller does, case by case, and what a pass does that is cut
    short. */
module JobPasses {
  import opened Go
  import opened DockerEngine
  import opened JobModel
  import opened JobDrift
  import opened JobProgress
  import opened JobRest
  import opened JobDeadline

  /** The job is live and unfinished, and nothing disturbs the pass. */
  ghost predicate Ready(w: World) {
    w.stored.Some? && LiveWith(w, w.stored.value.status) && !Terminal(w.stored.value.status) && Smooth(w, CALLS)
  }

  /** The status was written, and nothing else of the object. */
  ghost predicate Wrote(w: World, v: World, s: Status) {
    && w.stored.Some? && v.stored.Some?
    && v.stored.value == w.stored.value.(status := s, version := w.stored.value.version + 1)
  }

  const FIVE_SECONDS := 5_000_000_000

  lemma ReadyDispatch(j: Job, w: World) returns (v: World)
    requires Ready(w)
    ensures v == w.(tape := w.tape[3..]) && Smooth(v, CALLS - 3)
    ensures ContainerName(j) !in w.engine.containers ==> Reconcile(j, w) == OnNotFound(j, v, w.stored.value)
    ensures ContainerName(j) in w.engine.containers ==>
      var c := w.engine.containers[ContainerName(j)];
      Reconcile(j, w) ==
        if RunningFlag(c.state) then OnRunning(j, v, w.stored.value, c)
        else if c.state == Exited then OnExited(j, v, w.stored.value, c)
        else (v, Again(REQUEUE_INTERVAL))
  {
    var job := w.stored.value;
    SmoothReconcile(j, w, job, CALLS - 2);
    var w1 := w.(tape := w.tape[2..]);
    AwaitSmooth(j, w1, CALLS - 2);
    v := w1.(tape := w1.tape[1..]);
    assert w.tape[2..][1..] == w.tape[3..];
  }

  lemma StartedID(j: Job, w: World, n: nat)
    requires Smooth(w, n + 3) && ContainerName(j) !in w.engine.containers
    ensures var (v, err, id) := CreateAndStart(j, w);
      ContainerName(j) in v.engine.containers && v.engine.containers[ContainerName(j)].id == id
  {
    AwaitSmooth(j, w, n + 3);
    var w1 := Await(j, w).0;
    AwaitSmooth(j, w1, n + 2);
    var (w2, err, id) := ContainerCreate(j, w1);
    AwaitSmooth(j, w2, n + 1);
  }

  /** Without a container the job gets one, is Running from now on in its next attempt, and is looked at again
      in five seconds. */
  lemma MissingIsStarted(j: Job, w: World)
    requires Ready(w) && ContainerName(j) !in w.engine.containers
    ensures var (v, result) := Reconcile(j, w);
      && Launched(j, v) && result == Again(FIVE_SECONDS)
      && var s := w.stored.value.status;
         Wrote(w, v, Persist(s.(phase := PhaseRunning, startTime := Some(w.clock), attempts := Int32(s.attempts + 1),
                                containerID := Some(v.engine.containers[ContainerName(j)].id))))
  {
    var job := w.stored.value;
    var w1 := ReadyDispatch(j, w);
    SmoothLaunch(j, w1, CALLS - 6);
    var (w2, err, id) := CreateAndStart(j, w1);
    StartedID(j, w1, CALLS - 6);
    AwaitSmooth(j, w2, CALLS - 6);
    var (w3, now) := Now(j, w2);
    var status := job.status.(phase := PhaseRunning, startTime := Some(now),
                              attempts := Int32(job.status.attempts + 1), containerID := Some(id));
    SmoothStatus(j, w3, job.(status := status), true, CALLS - 8);
  }

  /** A container that runs and is not overdue is left alone, and the job is Running with its ID. */
  lemma RunningIsLeft(j: Job, w: World)
    requires Ready(w) && ContainerName(j) in w.engine.containers
    requires RunningFlag(w.engine.containers[ContainerName(j)].state) && !Overdue(j, w.stored.value.status, w.clock)
    ensures var (v, result) := Reconcile(j, w);
      && v.engine == w.engine && result == Again(FIVE_SECONDS)
      && Wrote(w, v, Persist(w.stored.value.status.(phase := PhaseRunning,
                                       containerID := Some(w.engine.containers[ContainerName(j)].id))))
  {
    var job, c := w.stored.value, w.engine.containers[ContainerName(j)];
    var w1 := ReadyDispatch(j, w);
    AwaitSmooth(j, w1, CALLS - 3);
    var (w2, _) := Now(j, w1);
    var status := job.status.(phase := PhaseRunning, containerID := Some(c.id));
    SmoothStatus(j, w1, job.(status := status), false, CALLS - 4);
    SmoothStatus(j, w2, job.(status := status), false, CALLS - 5);
  }

  /** A container that has neither started nor exited is left alone. */
  lemma OthersAreLeft(j: Job, w: World)
    requires Ready(w) && ContainerName(j) in w.engine.containers
    requires var state := w.engine.containers[ContainerName(j)].state; !RunningFlag(state) && state != Exited
    ensures var (v, result) := Reconcile(j, w);
      v.engine == w.engine && v.stored == w.stored && result == Again(FIVE_SECONDS)
  {
    var v := ReadyDispatch(j, w);
  }

  /** An inspect reply without a state is no reason to act. */
  lemma StatelessIsLookedAtAgain(j: Job, w: World, job: Stored)
    requires !Terminal(job.status)
    requires var (_, err, _, bare) := ContainerInspect(j, w); err == Ok && bare
    ensures var (v, result) := Dispatch(j, w, job); Drift(j, w, v) && result == Again(FIVE_SECONDS)
  {
    AwaitDrifts(j, w);
  }

  /** The container is gone, or still there as it was. */
  predicate UpToCleanup(j: Job, w: World, v: World) {
    v.engine == w.engine || v.engine == w.engine.(containers := w.engine.containers - {ContainerName(j)})
  }

  /** What an undisturbed pass has to say about a finished job. */
  predicate AnswersTTL(j: Job, completed: int, now: int, v: World, result: Result) {
    if j.spec.ttlSecondsAfterFinished.None? then result == Finished
    else
      var due := completed + j.spec.ttlSecondsAfterFinished.value * 1_000_000_000;
      if now < due then result == Again(due - now)
      else result == Finished && ContainerName(j) !in v.engine.containers
  }

  lemma CleanupOnly(j: Job, w: World, job: Stored, n: nat)
    requires Smooth(w, n + 2)
    ensures UpToCleanup(j, w, TTLCleanup(j, w, job).0)
  {
    AwaitSmooth(j, w, n + 2);
    AwaitSmooth(j, w.(tape := w.tape[1..]), n + 1);
  }

  lemma FinishEnds(j: Job, w: World, done: Stored, completed: int, n: nat)
    requires Smooth(w, n + 3) && w.stored.Some? && w.stored.value == done.(status := w.stored.value.status)
    requires done.status.completionTime == Some(completed)
    ensures var (v, result) := Finish(j, w, done);
      && Wrote(w, v, Persist(done.status)) && UpToCleanup(j, w, v)
      && AnswersTTL(j, WholeSeconds(completed), w.clock, v, result)
  {
    SmoothStatus(j, w, done, false, n + 2);
    var (w1, _, stored) := StatusUpdate(j, w, done, false);
    SmoothTTL(j, w1, stored, n);
    CleanupOnly(j, w1, stored, n);
  }

  /** A container that runs past the deadline is removed, and the job is Failed, with the container and the
      time. */
  lemma OverdueEnds(j: Job, w: World)
    requires Ready(w) && ContainerName(j) in w.engine.containers
    requires RunningFlag(w.engine.containers[ContainerName(j)].state) && Overdue(j, w.stored.value.status, w.clock)
    ensures var (v, result) := Reconcile(j, w);
      && v.engine == w.engine.(containers := w.engine.containers - {ContainerName(j)})
      && AnswersTTL(j, WholeSeconds(w.clock), w.clock, v, result)
      && Wrote(w, v, Persist(w.stored.value.status.(phase := PhaseFailed, completionTime := Some(w.clock),
                                       containerID := Some(w.engine.containers[ContainerName(j)].id))))
  {
    var job, c := w.stored.value, w.engine.containers[ContainerName(j)];
    var w1 := ReadyDispatch(j, w);
    AwaitSmooth(j, w1, CALLS - 3);
    var (w2, _) := Now(j, w1);
    AwaitSmooth(j, w2, CALLS - 4);
    var (w3, _) := ContainerStop(j, w2, ById(ContainerName(j), c.id));
    AwaitSmooth(j, w3, CALLS - 5);
    var (w4, _) := ContainerRemove(j, w3, ById(ContainerName(j), c.id));
    assert w4.engine == w.engine.(containers := w.engine.containers - {ContainerName(j)});
    AwaitSmooth(j, w4, CALLS - 6);
    var (w5, now) := Now(j, w4);
    FinishEnds(j, w5, job.(status := job.status.(phase := PhaseFailed, containerID := Some(c.id),
                                                  completionTime := Some(now))), now, CALLS - 10);
  }

  /** A container that exited ends its job: with code 0 as Succeeded, and past the backoff limit as Failed, either
      way with the code, the container and the time. The TTL is looked at in the same pass. */
  lemma ExitIsFinal(j: Job, w: World)
    requires Ready(w) && ContainerName(j) in w.engine.containers
    requires var c := w.engine.containers[ContainerName(j)];
      c.state == Exited && (Int32(c.exitCode) == 0 || w.stored.value.status.attempts > j.spec.backoffLimit)
    ensures var (v, result) := Reconcile(j, w);
      var s, c := w.stored.value.status, w.engine.containers[ContainerName(j)];
      var code := Int32(c.exitCode);
      && UpToCleanup(j, w, v)
      && AnswersTTL(j, WholeSeconds(w.clock), w.clock, v, result)
      && Wrote(w, v, Persist(s.(phase := if code == 0 then PhaseSucceeded else PhaseFailed, exitCode := Some(code),
                                containerID := Some(c.id), completionTime := Some(w.clock))))
  {
    var job, c := w.stored.value, w.engine.containers[ContainerName(j)];
    var code := Int32(c.exitCode);
    var w1 := ReadyDispatch(j, w);
    AwaitSmooth(j, w1, CALLS - 3);
    var (w2, now) := Now(j, w1);
    var status := job.status.(containerID := Some(c.id), exitCode := Some(code), completionTime := Some(now),
                              phase := if code == 0 then PhaseSucceeded else PhaseFailed);
    FinishEnds(j, w2, job.(status := status), now, CALLS - 7);
  }

  lemma NextID(j: Job, w: World, n: nat)
    requires Smooth(w, n + 3) && ContainerName(j) !in w.engine.containers
    ensures CreateAndStart(j, w).2 == w.engine.nextId
  {
    AwaitSmooth(j, w, n + 3);
    var w1 := Await(j, w).0;
    AwaitSmooth(j, w1, n + 2);
    AwaitSmooth(j, ContainerCreate(j, w1).0, n + 1);
  }

  /** A container that failed within the backoff limit is replaced by a new one: the job is Running in its next
      attempt, and keeps its start time. */
  lemma FailureIsRetried(j: Job, w: World)
    requires Ready(w) && ContainerName(j) in w.engine.containers
    requires var c := w.engine.containers[ContainerName(j)];
      c.state == Exited && Int32(c.exitCode) != 0 && w.stored.value.status.attempts <= j.spec.backoffLimit
    ensures var (v, result) := Reconcile(j, w);
      && Launched(j, v) && result == Again(FIVE_SECONDS)
      && v.engine.containers[ContainerName(j)].id == w.engine.nextId
      && var s := w.stored.value.status;
         Wrote(w, v, Persist(s.(phase := PhaseRunning, attempts := Int32(s.attempts + 1), exitCode := None,
                                completionTime := None, containerID := Some(w.engine.nextId))))
  {
    var job, c := w.stored.value, w.engine.containers[ContainerName(j)];
    var w1 := ReadyDispatch(j, w);
    AwaitSmooth(j, w1, CALLS - 3);
    var (w2, now) := Now(j, w1);
    AwaitSmooth(j, w2, CALLS - 4);
    var (w3, _) := ContainerRemove(j, w2, ById(ContainerName(j), c.id));
    SmoothLaunch(j, w3, CALLS - 8);
    StartedID(j, w3, CALLS - 8);
    NextID(j, w3, CALLS - 8);
    var (w4, err, id) := CreateAndStart(j, w3);
    var status := job.status.(containerID := Some(id), exitCode := None, completionTime := None,
                              attempts := Int32(job.status.attempts + 1), phase := PhaseRunning);
    SmoothStatus(j, w4, job.(status := status), true, CALLS - 9);
  }

  /** A job that is being deleted goes together with its container. */
  lemma DeletedJobGoes(j: Job, w: World)
    requires Smooth(w, CALLS) && w.stored.Some? && w.stored.value.deleting && w.stored.value.finalizers == {FINALIZER}
    ensures var (v, result) := Reconcile(j, w);
      v.stored == None && ContainerName(j) !in v.engine.containers && result == Finished
  {
    AwaitSmooth(j, w, CALLS);
    var w1 := w.(tape := w.tape[1..]);
    AwaitSmooth(j, w1, CALLS - 1);
    var w2 := w1.(tape := w1.tape[1..]);
    AwaitSmooth(j, w2, CALLS - 2);
    var (w3, err) := ContainerRemove(j, w2, ByName(ContainerName(j)));
    AwaitSmooth(j, w3, CALLS - 3);
    assert w.stored.value.finalizers - {FINALIZER} == {};
  }

  /** Nothing is left to do for a job that does not exist. */
  lemma MissingJobIsDone(j: Job, w: World)
    requires Smooth(w, CALLS) && w.stored == None
    ensures var (v, result) := Reconcile(j, w); v == w.(tape := v.tape) && result == Finished
  {
    AwaitSmooth(j, w, CALLS);
  }

  // ---- Passes that are cut short ----

  lemma DriftTransitive(j: Job, u: World, v: World, w: World)
    requires Drift(j, u, v) && Drift(j, v, w)
    ensures Drift(j, u, w)
  {
  }

  /** Without a Docker client, or without the object, a pass does nothing and says so. */
  lemma NoClientNothingDone(j: Job, w: World)
    requires OutcomeAt(w, 0) != Done || OutcomeAt(w, 1) != Done
    ensures var (v, result) := Reconcile(j, w); Drift(j, w, v) && (result == Error || result == Finished)
    ensures OutcomeAt(w, 0) != Done ==> Reconcile(j, w).1 == Error
  {
    AwaitDrifts(j, w);
    AwaitTape(j, w);
    var w1 := Await(j, w).0;
    AwaitDrifts(j, w1);
    DriftTransitive(j, w, w1, Await(j, w1).0);
  }

  /** Without its image no container is created. */
  lemma NoImageNoContainer(j: Job, w: World, job: Stored)
    requires OutcomeAt(w, 0) != Done
    ensures Drift(j, w, OnNotFound(j, w, job).0) && OnNotFound(j, w, job).1 == Error
  {
    AwaitDrifts(j, w);
  }

  lemma LaunchKeepsLog(j: Job, w: World)
    ensures CreateAndStart(j, w).0.log.lostWrites == w.log.lostWrites
  {
    AwaitDrifts(j, w);
    var (w1, pull) := Await(j, w);
    AwaitDrifts(j, w1);
    var (w2, err, id) := ContainerCreate(j, w1);
    AwaitDrifts(j, w2);
  }

  /** A retry that cannot start its container makes the job Failed with the exit code, unless that write is lost
      or the job is gone. */
  lemma FailedRetryIsFinal(j: Job, w: World, job: Stored, c: Container)
    requires Int32(c.exitCode) != 0 && job.status.attempts <= j.spec.backoffLimit
    ensures var (v, result) := OnExited(j, w, job, c);
      result == Error ==>
        || w.log.lostWrites < v.log.lostWrites
        || (&& v.stored.Some? && v.stored.value.status.phase == PhaseFailed
            && v.stored.value.status.exitCode == Some(Int32(c.exitCode)))
  {
    AwaitDrifts(j, w);
    var (w1, now) := Now(j, w);
    AwaitDrifts(j, w1);
    var (w2, _) := ContainerRemove(j, w1, ById(ContainerName(j), c.id));
    LaunchKeepsLog(j, w2);
    var (w3, err, id) := CreateAndStart(j, w2);
    AwaitDrifts(j, w3);
  }

  /** A removal that is refused is reported, so that it is tried again: at the end of the TTL, and when the job is
      deleted, which then keeps its finalizer. */
  lemma RefusedCleanupIsReported(j: Job, w: World, job: Stored)
    requires j.spec.ttlSecondsAfterFinished.Some? && job.status.completionTime.Some? && OutcomeAt(w, 1) == Refused
    ensures var (v, result) := TTLCleanup(j, w, job);
      Drift(j, w, v) && (result == Error || result.Again?)
  {
    AwaitTape(j, w);
    AwaitDrifts(j, w);
    var w1 := Await(j, w).0;
    AwaitDrifts(j, w1);
    DriftTransitive(j, w, w1, Await(j, w1).0);
  }

  lemma RefusedRemovalKeepsJob(j: Job, w: World, job: Stored)
    requires OutcomeAt(w, 0) == Refused
    ensures var (v, result) := Finalize(j, w, job); Drift(j, w, v) && result == Error
  {
    AwaitDrifts(j, w);
  }
}
