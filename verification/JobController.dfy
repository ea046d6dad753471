/** The DockerJob controller as the program it is: a DockerJob whose status fields are updated step
    by step while containers come and go (internal/controller/dockerjob_controller.go). Every method
    is proved to do to its surroundings what the function of the same name in JobModel says. */
module JobController {
  import opened Go
  import opened DockerEngine
  import opened JobModel

  /** The controller's own copy of a DockerJob. */
  class DockerJob {
    const job: Job
    var finalizers: set<string>
    var deleting: bool
    var version: nat
    var phase: Phase
    var containerID: Option<nat>
    var startTime: Option<int>
    var completionTime: Option<int>
    var exitCode: Option<int32>
    var attempts: int32

    function View(): Stored
      reads this
    {
      Stored(finalizers, deleting, version, Status(phase, containerID, startTime, completionTime, exitCode, attempts))
    }

    constructor (job: Job, s: Stored)
      ensures this.job == job && View() == s
    {
      this.job := job;
      finalizers, deleting, version := s.finalizers, s.deleting, s.version;
      phase, containerID := s.status.phase, s.status.containerID;
      startTime, completionTime := s.status.startTime, s.status.completionTime;
      exitCode, attempts := s.status.exitCode, s.status.attempts;
    }

    /** The server's answer is decoded over the copy. */
    method Decode(s: Stored)
      modifies this
      ensures View() == s
    {
      finalizers, deleting, version := s.finalizers, s.deleting, s.version;
      phase, containerID := s.status.phase, s.status.containerID;
      startTime, completionTime := s.status.startTime, s.status.completionTime;
      exitCode, attempts := s.status.exitCode, s.status.attempts;
    }
  }

  /** The API server and the Docker engine, with the tape that decides what they do. */
  class Cluster {
    const job: Job
    var world: World

    constructor (job: Job, world: World)
      ensures this.job == job && this.world == world
    {
      this.job, this.world := job, world;
    }

    method Client() returns (err: Err)
      modifies this
      ensures var (w, call) := Await(job, old(world)); world == w && err == Seen(call.outcome, Ok)
    {
      var (w, call) := Await(job, world);
      world := w;
      err := Seen(call.outcome, Ok);
    }

    method Time() returns (now: int)
      modifies this
      ensures (world, now) == Now(job, old(world))
    {
      var (w, t) := Now(job, world);
      world, now := w, t;
    }

    method GetJob() returns (err: Err, copy: DockerJob?)
      modifies this
      ensures var (w, e, got) := Get(job, old(world));
        && world == w && err == e
        && (err == Ok ==> copy != null && fresh(copy) && copy.job == job && copy.View() == got.value)
    {
      var (w, e, got) := Get(job, world);
      world, err, copy := w, e, null;
      if err == Ok {
        copy := new DockerJob(job, got.value);
      }
    }

    method UpdateJob(copy: DockerJob) returns (err: Err)
      modifies this, copy
      ensures (world, err, copy.View()) == Update(job, old(world), old(copy.View()))
    {
      var (w, e, answer) := Update(job, world, copy.View());
      world, err := w, e;
      copy.Decode(answer);
    }

    method UpdateStatus(copy: DockerJob, started: bool)
      modifies this, copy
      ensures var (w, _, answer) := StatusUpdate(job, old(world), old(copy.View()), started);
        world == w && copy.View() == answer
    {
      var (w, _, answer) := StatusUpdate(job, world, copy.View(), started);
      world := w;
      copy.Decode(answer);
    }

    method Inspect() returns (err: Err, c: Option<Container>, bare: bool)
      modifies this
      ensures (world, err, c, bare) == ContainerInspect(job, old(world))
    {
      var (w, e, found, b) := ContainerInspect(job, world);
      world, err, c, bare := w, e, found, b;
    }

    method Stop(id: nat) returns (err: Err)
      modifies this
      ensures (world, err) == ContainerStop(job, old(world), ById(ContainerName(job), id))
    {
      var (w, e) := ContainerStop(job, world, ById(ContainerName(job), id));
      world, err := w, e;
    }

    method Remove(ref: Ref) returns (err: Err)
      modifies this
      ensures (world, err) == ContainerRemove(job, old(world), ref)
    {
      var (w, e) := ContainerRemove(job, world, ref);
      world, err := w, e;
    }

    method Create() returns (err: Err, id: nat)
      modifies this
      ensures (world, err, id) == ContainerCreate(job, old(world))
    {
      var (w, e, n) := ContainerCreate(job, world);
      world, err, id := w, e, n;
    }

    method Start(id: nat) returns (err: Err)
      modifies this
      ensures (world, err) == ContainerStart(job, old(world), id)
    {
      var (w, e) := ContainerStart(job, world, id);
      world, err := w, e;
    }
  }

  class DockerJobReconciler {
    const cluster: Cluster
    const job: Job

    predicate Wired()
    {
      cluster.job == job
    }

    constructor (cluster: Cluster)
      ensures this.cluster == cluster && Wired()
    {
      this.cluster, this.job := cluster, cluster.job;
    }

    method CreateAndStartContainer() returns (err: Err, id: nat)
      requires Wired()
      modifies cluster
      ensures (cluster.world, err, id) == CreateAndStart(job, old(cluster.world))
    {
      id := 0;
      err := cluster.Client();  // pulling the image
      if err != Ok {
        return;
      }
      var created;
      err, created := cluster.Create();
      if err != Ok {
        return Failure, 0;
      }
      err := cluster.Start(created);
      if err != Ok {
        return Failure, 0;
      }
      id := created;
    }

    method HandleTTLCleanup(copy: DockerJob) returns (result: Result)
      requires Wired()
      modifies cluster
      ensures (cluster.world, result) == TTLCleanup(job, old(cluster.world), old(copy.View()))
    {
      if job.spec.ttlSecondsAfterFinished == None || copy.completionTime == None {
        return Finished;
      }
      var ttl := job.spec.ttlSecondsAfterFinished.value * SECOND;
      var now := cluster.Time();
      var elapsed := now - copy.completionTime.value;
      if elapsed < ttl {
        return Again(ttl - elapsed);
      }
      var err := cluster.Remove(ByName(ContainerName(job)));
      if err == Failure {
        return Error;
      }
      return Finished;
    }

    method Sync(copy: DockerJob) returns (result: Result)
      requires Wired() && copy.job == job
      modifies cluster, copy
      ensures (cluster.world, result) == SyncJob(job, old(cluster.world), old(copy.View()))
    {
      var err, inspected, bare := cluster.Inspect();
      if err == Failure {
        return Error;
      }
      if err == NotFound {
        result := SyncMissing(copy);
        return;
      }
      if bare {
        return Again(REQUEUE_INTERVAL);
      }
      var c := inspected.value;
      if RunningFlag(c.state) {
        result := SyncRunning(copy, c);
      } else if c.state == Exited {
        result := SyncExited(copy, c);
      } else {
        result := Again(REQUEUE_INTERVAL);
      }
    }

    method SyncMissing(copy: DockerJob) returns (result: Result)
      requires Wired() && copy.job == job
      modifies cluster, copy
      ensures (cluster.world, result) == OnNotFound(job, old(cluster.world), old(copy.View()))
    {
      var err, id := CreateAndStartContainer();
      if err != Ok {
        return Error;
      }
      result := ReportStarted(copy, id);
    }

    method ReportStarted(copy: DockerJob, id: nat) returns (result: Result)
      requires Wired() && copy.job == job
      modifies cluster, copy
      ensures (cluster.world, result) == ReportStart(job, old(cluster.world), old(copy.View()), id)
    {
      var now := cluster.Time();
      copy.phase := PhaseRunning;
      copy.startTime := Some(now);
      copy.attempts := Int32(copy.attempts + 1);
      copy.containerID := Some(id);
      cluster.UpdateStatus(copy, true);
      return Again(REQUEUE_INTERVAL);
    }

    method SyncRunning(copy: DockerJob, c: Container) returns (result: Result)
      requires Wired() && copy.job == job
      modifies cluster, copy
      ensures (cluster.world, result) == OnRunning(job, old(cluster.world), old(copy.View()), c)
    {
      if job.spec.activeDeadlineSeconds.Some? && copy.startTime.Some? {
        var deadline := copy.startTime.value + DeadlineDuration(job.spec.activeDeadlineSeconds.value);
        var now := cluster.Time();
        if now > deadline {
          var _ := cluster.Stop(c.id);
          var _ := cluster.Remove(ById(ContainerName(job), c.id));
          var completed := cluster.Time();
          copy.phase := PhaseFailed;
          copy.containerID := Some(c.id);
          copy.completionTime := Some(completed);
          cluster.UpdateStatus(copy, false);
          result := HandleTTLCleanup(copy);
          return;
        }
      }
      if copy.phase != PhaseRunning {
        copy.phase := PhaseRunning;
      }
      copy.containerID := Some(c.id);
      cluster.UpdateStatus(copy, false);
      return Again(REQUEUE_INTERVAL);
    }

    method SyncExited(copy: DockerJob, c: Container) returns (result: Result)
      requires Wired() && copy.job == job
      modifies cluster, copy
      ensures (cluster.world, result) == OnExited(job, old(cluster.world), old(copy.View()), c)
    {
      var code := Int32(c.exitCode);
      var now := cluster.Time();
      copy.containerID := Some(c.id);
      copy.exitCode := Some(code);
      copy.completionTime := Some(now);
      if code == 0 {
        copy.phase := PhaseSucceeded;
        cluster.UpdateStatus(copy, false);
        result := HandleTTLCleanup(copy);
        return;
      }
      if copy.attempts <= job.spec.backoffLimit {
        result := RetryExited(copy, c);
        return;
      }
      copy.phase := PhaseFailed;
      cluster.UpdateStatus(copy, false);
      result := HandleTTLCleanup(copy);
    }

    method RetryExited(copy: DockerJob, c: Container) returns (result: Result)
      requires Wired() && copy.job == job
      modifies cluster, copy
      ensures (cluster.world, result) == Retry(job, old(cluster.world), old(copy.View()), c)
    {
      var _ := cluster.Remove(ById(ContainerName(job), c.id));
      result := RelaunchContainer(copy);
    }

    method RelaunchContainer(copy: DockerJob) returns (result: Result)
      requires Wired() && copy.job == job
      modifies cluster, copy
      ensures (cluster.world, result) == Relaunch(job, old(cluster.world), old(copy.View()))
    {
      var err, id := CreateAndStartContainer();
      if err != Ok {
        copy.phase := PhaseFailed;
        cluster.UpdateStatus(copy, false);
        return Error;
      }
      result := ReportRetried(copy, id);
    }

    method ReportRetried(copy: DockerJob, id: nat) returns (result: Result)
      requires Wired() && copy.job == job
      modifies cluster, copy
      ensures (cluster.world, result) == ReportRetry(job, old(cluster.world), old(copy.View()), id)
    {
      copy.attempts := Int32(copy.attempts + 1);
      copy.phase := PhaseRunning;
      copy.containerID := Some(id);
      copy.exitCode := None;
      copy.completionTime := None;
      cluster.UpdateStatus(copy, true);
      return Again(REQUEUE_INTERVAL);
    }

    method ReconcileJob() returns (result: Result)
      requires Wired()
      modifies cluster
      ensures (cluster.world, result) == Reconcile(job, old(cluster.world))
    {
      var err, copy := cluster.GetJob();
      if err == NotFound {
        return Finished;
      }
      if err == Failure {
        return Error;
      }
      err := cluster.Client();
      if err != Ok {
        return Error;
      }
      if !copy.deleting {
        if FINALIZER !in copy.finalizers {
          copy.finalizers := copy.finalizers + {FINALIZER};
          err := cluster.UpdateJob(copy);
          if err != Ok {
            return Error;
          }
        }
      } else {
        if FINALIZER in copy.finalizers {
          err := cluster.Remove(ByName(ContainerName(job)));
          if err == Failure {
            return Error;
          }
          copy.finalizers := copy.finalizers - {FINALIZER};
          err := cluster.UpdateJob(copy);
          if err != Ok {
            return Error;
          }
        }
        return Finished;
      }
      if copy.phase == PhaseSucceeded || copy.phase == PhaseFailed {
        result := HandleTTLCleanup(copy);
      } else {
        result := Sync(copy);
      }
    }
  }
}
