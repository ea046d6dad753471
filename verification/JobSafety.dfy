/** What every pass of the DockerJob controller keeps, whatever fails and whatever happens in between. */
module JobSafety {
  import opened Go
  import opened DockerEngine
  import opened JobModel
  import opened JobDrift

  // ---- The invariant ----

  /** A container the controller created is the job's, is made from the job's spec, and is held by the finalizer. */
  ghost predicate Guarded(j: Job, w: World) {
    forall n :: Ours(w, n) ==>
      && n == ContainerName(j)
      && Held(w)
      && w.engine.containers[n].config == Completed(w.engine, JobConfig(j))
      && w.engine.containers[n].host == JobHostConfig(j)
  }

  ghost predicate Shape(s: Status) {
    match s.phase
    case NoPhase => s == EMPTY_STATUS
    case PhaseRunning => s.exitCode == None && s.completionTime == None
    case PhaseSucceeded => s.exitCode == Some(0) && s.completionTime.Some?
    case PhaseFailed => s.exitCode != Some(0) && s.completionTime.Some?
  }

  /** A stored time is in whole seconds. */
  ghost predicate Serialised(s: Status) {
    Persist(s) == s
  }

  ghost predicate Safe(j: Job, w: World) {
    Guarded(j, w) && (w.stored.Some? ==> Shape(w.stored.value.status) && Serialised(w.stored.value.status))
  }

  predicate Present(j: Job, w: World) {
    ContainerName(j) in w.engine.containers
  }

  ghost predicate Clean(w: World) {
    w.log.outsideRemovals == 0 && w.log.lostWrites == 0
  }

  /** How many starts the backoff limit, the outside removals and the lost writes account for. */
  function Cap(j: Job, w: World): int {
    Max(j.spec.backoffLimit, 0) + 1 + w.log.outsideRemovals + w.log.lostWrites
  }

  /** If the container has to be created anew, its start is still within the cap, and with nothing
      removed or lost it is the first one. */
  ghost predicate Funded(j: Job, w: World)
    requires w.stored.Some?
  {
    !Present(j, w) ==>
      && (Cap(j, w) < TWO_31 ==> w.log.starts < Cap(j, w))
      && (Clean(w) ==> w.stored.value.status.startTime.None?)
  }

  ghost predicate Active(w: World) {
    w.stored.Some? && !w.stored.value.deleting && !Terminal(w.stored.value.status)
  }

  /** The bookkeeping: Attempts counts the recorded starts, and the next fresh start is always paid for. */
  ghost predicate Ledger(j: Job, w: World) {
    && w.log.recorded <= w.log.starts <= w.log.recorded + w.log.lostWrites
    && (w.stored.Some? ==> w.stored.value.status.attempts == Int32(w.log.recorded))
    && (Cap(j, w) < TWO_31 ==> w.log.starts <= Cap(j, w))
    && (Active(w) ==> Funded(j, w))
  }

  ghost predicate Inv(j: Job, w: World) {
    Safe(j, w) && Ledger(j, w)
  }

  // ---- What the parts of a pass do to the world ----

  /** Status, counters and finalizer as before, apart from what outsiders removed. */
  ghost predicate Quiet(j: Job, w: World, w': World) {
    && Held(w')
    && Held(w)
    && w'.stored.value.status == w.stored.value.status
    && w'.log.recorded == w.log.recorded
    && w'.log.lostWrites == w.log.lostWrites
    && w.log.outsideRemovals <= w'.log.outsideRemovals
    && (Present(j, w) && !Present(j, w') ==> w.log.outsideRemovals < w'.log.outsideRemovals)
  }

  /** As Quiet, but the controller may have removed the container. */
  ghost predicate Emptied(w: World, w': World) {
    && Held(w')
    && Held(w)
    && w'.stored.value.status == w.stored.value.status
    && w'.log.starts == w.log.starts
    && w'.log.unseenStarts == w.log.unseenStarts
    && w'.log.recorded == w.log.recorded
    && w'.log.lostWrites == w.log.lostWrites
    && w.log.outsideRemovals <= w'.log.outsideRemovals
  }

  lemma AwaitKeeps(j: Job, w: World)
    ensures var w' := Await(j, w).0;
      && (Safe(j, w) ==> Safe(j, w'))
      && (Ledger(j, w) ==> Ledger(j, w'))
      && w'.log.starts == w.log.starts && w'.log.unseenStarts == w.log.unseenStarts
      && (Held(w) ==> Quiet(j, w, w') && (Ledger(j, w) && Funded(j, w) ==> Funded(j, w')))
  {
    AwaitDrifts(j, w);
  }

  lemma ContainerCreateKeeps(j: Job, w: World)
    requires Held(w) && Safe(j, w)
    ensures var w' := ContainerCreate(j, w).0;
      Safe(j, w') && Quiet(j, w, w') && w'.log.starts == w.log.starts
  {
    AwaitKeeps(j, w);
  }

  lemma ContainerStartKeeps(j: Job, w: World, id: nat)
    requires Held(w) && Safe(j, w)
    ensures var (w', err) := ContainerStart(j, w, id);
      && Safe(j, w') && Quiet(j, w, w')
      && w'.log.starts == w.log.starts + (if err == Ok then 1 else 0)
      && (err == Ok ==> Present(j, w'))
  {
    AwaitKeeps(j, w);
  }

  lemma QuietTransitive(j: Job, u: World, v: World, w: World)
    requires Quiet(j, u, v) && Quiet(j, v, w)
    ensures Quiet(j, u, w)
  {
  }

  lemma CreateAndStartKeeps(j: Job, w: World)
    requires Held(w) && Safe(j, w)
    ensures var (w', err, _) := CreateAndStart(j, w);
      && Safe(j, w') && Quiet(j, w, w')
      && w'.log.starts == w.log.starts + (if err == Ok then 1 else 0)
      && (err == Ok ==> Present(j, w'))
  {
    AwaitKeeps(j, w);
    var w1 := Await(j, w).0;
    ContainerCreateKeeps(j, w1);
    var (w2, err, id) := ContainerCreate(j, w1);
    QuietTransitive(j, w, w1, w2);
    if err == Ok {
      ContainerStartKeeps(j, w2, id);
      QuietTransitive(j, w, w2, ContainerStart(j, w2, id).0);
    }
  }

  /** Whether the write is stored, lost or stored with its reply lost: one of two outcomes for the world. */
  lemma StatusUpdateKeeps(j: Job, w: World, local: Stored, started: bool)
    requires Held(w) && Safe(j, w) && Shape(Persist(local.status)) && Serialised(Persist(local.status))
    ensures var w1 := Await(j, w).0;
      var (w', err, local') := StatusUpdate(j, w, local, started);
      && Safe(j, w') && Held(w') && Quiet(j, w, w1) && w'.engine == w1.engine
      && w'.log.starts == w.log.starts && w'.log.outsideRemovals == w1.log.outsideRemovals
      && (|| (&& w'.stored.value.status == Persist(local.status)
              && w'.log.lostWrites == w.log.lostWrites
              && w'.log.recorded == w.log.recorded + (if started then 1 else 0))
          || (&& w'.stored.value.status == w.stored.value.status
              && w'.log.lostWrites == w.log.lostWrites + 1
              && w'.log.recorded == w.log.recorded))
  {
    AwaitKeeps(j, w);
  }

  lemma ContainerRemoveKeeps(j: Job, w: World, ref: Ref)
    requires Held(w) && Safe(j, w)
    ensures var w' := ContainerRemove(j, w, ref).0; Safe(j, w') && Emptied(w, w')
  {
    AwaitKeeps(j, w);
  }

  lemma ContainerStopKeeps(j: Job, w: World, ref: Ref)
    requires Held(w) && Safe(j, w)
    ensures var w' := ContainerStop(j, w, ref).0; Safe(j, w') && Emptied(w, w')
  {
    AwaitKeeps(j, w);
  }

  lemma TerminateKeeps(j: Job, w: World, id: nat)
    requires Held(w) && Safe(j, w)
    ensures var w' := Terminate(j, w, id); Safe(j, w') && Emptied(w, w')
  {
    var ref := ById(ContainerName(j), id);
    ContainerStopKeeps(j, w, ref);
    ContainerRemoveKeeps(j, ContainerStop(j, w, ref).0, ref);
  }

  /** TTL cleanup may remove the container and nothing else. */
  lemma TTLCleanupKeeps(j: Job, w: World, job: Stored)
    requires Held(w) && Safe(j, w)
    ensures var w' := TTLCleanup(j, w, job).0; Safe(j, w') && Emptied(w, w')
  {
    AwaitKeeps(j, w);
    ContainerRemoveKeeps(j, Now(j, w).0, ByName(ContainerName(j)));
  }

  // ---- The branches of syncJob ----

  /** Where the controller's copy of the job stands while it synchronises an unfinished job. */
  ghost predicate Syncing(j: Job, w: World, job: Stored) {
    Held(w) && Inv(j, w) && Funded(j, w) && w.stored.value.status == job.status && !Terminal(job.status)
  }

  /** With nothing removed by outsiders and no write lost, a recorded start time stays. */
  ghost predicate StartTimeKept(w: World, w': World) {
    Clean(w') && w.stored.Some? && w'.stored.Some? && w.stored.value.status.startTime.Some? ==>
      w'.stored.value.status.startTime == w.stored.value.status.startTime
  }

  /** Succeeded and Failed are never left, and nothing is started any more. */
  ghost predicate Absorbed(w: World, w': World) {
    w.stored.Some? && Terminal(w.stored.value.status) ==>
      && (w'.stored.Some? ==> w'.stored.value.status == w.stored.value.status)
      && w'.log.starts == w.log.starts && w'.log.unseenStarts == w.log.unseenStarts
  }

  /** What relates a world to any later one. */
  ghost predicate Onward(w: World, w': World) {
    && StartTimeKept(w, w')
    && Absorbed(w, w')
    && (w.stored.None? ==>
          w'.stored.None? && w'.log.starts == w.log.starts && w'.log.unseenStarts == w.log.unseenStarts)
    && w.log.outsideRemovals <= w'.log.outsideRemovals
    && w.log.lostWrites <= w'.log.lostWrites
  }

  lemma Int32Successor(n: int)
    ensures Int32(Int32(n) + 1) == Int32(n + 1)
  {
  }

  lemma PersistOnce(s: Status)
    ensures Persist(Persist(s)) == Persist(s)
  {
  }

  /** The ledger after a start and the status write that reports it. */
  lemma StartRecorded(j: Job, w: World, w': World)
    requires Ledger(j, w) && Held(w) && Held(w')
    requires Present(j, w') || w.log.outsideRemovals < w'.log.outsideRemovals
    requires Cap(j, w) < TWO_31 ==> w.log.starts < Cap(j, w)
    requires w'.log.starts == w.log.starts + 1 && w.log.outsideRemovals <= w'.log.outsideRemovals
    requires
      || (&& w'.stored.value.status.attempts == Int32(w.stored.value.status.attempts + 1)
          && w'.log.lostWrites == w.log.lostWrites && w'.log.recorded == w.log.recorded + 1)
      || (&& w'.stored.value.status.attempts == w.stored.value.status.attempts
          && w'.log.lostWrites == w.log.lostWrites + 1 && w'.log.recorded == w.log.recorded)
    ensures Ledger(j, w')
  {
    Int32Successor(w.log.recorded);
  }

  lemma ReportStartKeeps(j: Job, w0: World, w: World, job: Stored, id: nat)
    requires Syncing(j, w0, job) && !Present(j, w0)
    requires Safe(j, w) && Quiet(j, w0, w) && w.log.starts == w0.log.starts + 1 && Present(j, w)
    ensures var w' := ReportStart(j, w, job, id).0; Inv(j, w') && Held(w') && Onward(w0, w')
  {
    AwaitKeeps(j, w);
    var (w1, now) := Now(j, w);
    var status := job.status.(phase := PhaseRunning, startTime := Some(now),
                              attempts := Int32(job.status.attempts + 1), containerID := Some(id));
    PersistOnce(status);
    StatusUpdateKeeps(j, w1, job.(status := status), true);
    StartRecorded(j, w0, StatusUpdate(j, w1, job.(status := status), true).0);
  }

  lemma OnNotFoundKeeps(j: Job, w: World, job: Stored)
    requires Syncing(j, w, job) && !Present(j, w)
    ensures var w' := OnNotFound(j, w, job).0; Inv(j, w') && Held(w') && Onward(w, w')
  {
    CreateAndStartKeeps(j, w);
    var (w1, err, id) := CreateAndStart(j, w);
    if err == Ok {
      ReportStartKeeps(j, w, w1, job, id);
    }
  }

  /** The ledger after a status write that reports no start, possibly with the container removed on the way. */
  lemma WriteRecorded(j: Job, w: World, w': World)
    requires Ledger(j, w) && Held(w) && Held(w')
    requires w'.log.starts == w.log.starts && w'.log.recorded == w.log.recorded
    requires w.log.outsideRemovals <= w'.log.outsideRemovals
    requires
      || (w'.log.lostWrites == w.log.lostWrites + 1 && w'.stored.value.status == w.stored.value.status)
      || (w'.log.lostWrites == w.log.lostWrites && Terminal(w'.stored.value.status)
          && w'.stored.value.status.attempts == w.stored.value.status.attempts)
    ensures Ledger(j, w')
  {
  }

  /** A final status is stored or lost; the container may be removed before and after. */
  lemma FinishKeeps(j: Job, w0: World, w: World, done: Stored)
    requires Inv(j, w0) && Safe(j, w) && Emptied(w0, w) && !Terminal(w0.stored.value.status)
    requires Terminal(done.status) && Shape(done.status)
    requires done.status.startTime == w0.stored.value.status.startTime
    requires done.status.attempts == w0.stored.value.status.attempts
    ensures var w' := Finish(j, w, done).0;
      && Inv(j, w') && Held(w') && Onward(w0, w')
      && w'.log.starts == w0.log.starts
      && (w'.log.lostWrites == w0.log.lostWrites ==> w'.stored.value.status == Persist(done.status))
  {
    PersistOnce(done.status);
    StatusUpdateKeeps(j, w, done, false);
    var (w1, _, done1) := StatusUpdate(j, w, done, false);
    TTLCleanupKeeps(j, w1, done1);
    WriteRecorded(j, w0, TTLCleanup(j, w1, done1).0);
  }

  lemma OnDeadlineKeeps(j: Job, w: World, job: Stored, c: Container)
    requires Syncing(j, w, job)
    ensures var w' := OnDeadline(j, w, job, c).0;
      && Inv(j, w') && Held(w') && Onward(w, w')
      && w'.log.starts == w.log.starts
      && (w'.log.lostWrites == w.log.lostWrites ==>
            w'.stored.value.status.phase == PhaseFailed && w'.stored.value.status.exitCode == None)
  {
    TerminateKeeps(j, w, c.id);
    var w1 := Terminate(j, w, c.id);
    AwaitKeeps(j, w1);
    var (w2, now) := Now(j, w1);
    FinishKeeps(j, w, w2,
      job.(status := job.status.(phase := PhaseFailed, containerID := Some(c.id), completionTime := Some(now))));
  }

  lemma StillRunningKeeps(j: Job, w: World, job: Stored, c: Container)
    requires Syncing(j, w, job)
    ensures var w' := StillRunning(j, w, job, c).0; Inv(j, w') && Held(w') && Onward(w, w')
  {
    var status := job.status.(phase := PhaseRunning, containerID := Some(c.id));
    StatusUpdateKeeps(j, w, job.(status := status), false);
  }

  lemma OnRunningKeeps(j: Job, w: World, job: Stored, c: Container)
    requires Syncing(j, w, job)
    ensures var w' := OnRunning(j, w, job, c).0; Inv(j, w') && Held(w') && Onward(w, w')
  {
    if j.spec.activeDeadlineSeconds.Some? && job.status.startTime.Some? {
      AwaitKeeps(j, w);
      var (w1, now) := Now(j, w);
      if now > job.status.startTime.value + DeadlineDuration(j.spec.activeDeadlineSeconds.value) {
        OnDeadlineKeeps(j, w1, job, c);
      } else {
        StillRunningKeeps(j, w1, job, c);
      }
    } else {
      StillRunningKeeps(j, w, job, c);
    }
  }

  /** Within the backoff limit the next start is paid for. */
  lemma RetryIsPaidFor(j: Job, w: World)
    requires Ledger(j, w) && Held(w) && w.stored.value.status.attempts <= j.spec.backoffLimit
    ensures Cap(j, w) < TWO_31 ==> w.log.starts < Cap(j, w)
  {
  }

  lemma ReportRetryKeeps(j: Job, w0: World, w: World, job: Stored, id: nat)
    requires Inv(j, w0) && Safe(j, w) && Present(j, w)
    requires Emptied(w0, w.(log := w.log.(starts := w0.log.starts, unseenStarts := w0.log.unseenStarts)))
    requires !Terminal(w0.stored.value.status) && w.log.starts == w0.log.starts + 1
    requires Cap(j, w0) < TWO_31 ==> w0.log.starts < Cap(j, w0)
    requires job.status.startTime == w0.stored.value.status.startTime
    requires job.status.attempts == w0.stored.value.status.attempts
    ensures var w' := ReportRetry(j, w, job, id).0; Inv(j, w') && Held(w') && Onward(w0, w')
  {
    var status := job.status.(attempts := Int32(job.status.attempts + 1), phase := PhaseRunning,
                              containerID := Some(id), exitCode := None, completionTime := None);
    PersistOnce(status);
    StatusUpdateKeeps(j, w, job.(status := status), true);
    StartRecorded(j, w0, StatusUpdate(j, w, job.(status := status), true).0);
  }

  lemma RelaunchKeeps(j: Job, w0: World, w: World, job: Stored)
    requires Inv(j, w0) && Safe(j, w) && Emptied(w0, w) && !Terminal(w0.stored.value.status)
    requires Cap(j, w0) < TWO_31 ==> w0.log.starts < Cap(j, w0)
    requires job.status.startTime == w0.stored.value.status.startTime
    requires job.status.attempts == w0.stored.value.status.attempts
    requires job.status.exitCode.Some? && job.status.exitCode != Some(0) && job.status.completionTime.Some?
    ensures var w' := Relaunch(j, w, job).0; Inv(j, w') && Held(w') && Onward(w0, w')
  {
    CreateAndStartKeeps(j, w);
    var (w1, err, id) := CreateAndStart(j, w);
    if err != Ok {
      var failed := job.(status := job.status.(phase := PhaseFailed));
      PersistOnce(failed.status);
      StatusUpdateKeeps(j, w1, failed, false);
      WriteRecorded(j, w0, StatusUpdate(j, w1, failed, false).0);
      assert Relaunch(j, w, job).0 == StatusUpdate(j, w1, failed, false).0;
    } else {
      ReportRetryKeeps(j, w0, w1, job, id);
    }
  }

  lemma OnExitedKeeps(j: Job, w: World, job: Stored, c: Container)
    requires Syncing(j, w, job)
    ensures var w' := OnExited(j, w, job, c).0; Inv(j, w') && Held(w') && Onward(w, w')
  {
    var code := Int32(c.exitCode);
    AwaitKeeps(j, w);
    var (w1, now) := Now(j, w);
    var status := job.status.(containerID := Some(c.id), exitCode := Some(code), completionTime := Some(now));
    if code == 0 {
      FinishKeeps(j, w, w1, job.(status := status.(phase := PhaseSucceeded)));
    } else if job.status.attempts <= j.spec.backoffLimit {
      RetryIsPaidFor(j, w);
      var ref := ById(ContainerName(j), c.id);
      ContainerRemoveKeeps(j, w1, ref);
      RelaunchKeeps(j, w, ContainerRemove(j, w1, ref).0, job.(status := status));
    } else {
      FinishKeeps(j, w, w1, job.(status := status.(phase := PhaseFailed)));
    }
  }

  lemma SyncJobKeeps(j: Job, w: World, job: Stored)
    requires Syncing(j, w, job)
    ensures var w' := SyncJob(j, w, job).0; Inv(j, w') && Held(w') && Onward(w, w')
  {
    AwaitKeeps(j, w);
    var (w1, err, c, bare) := ContainerInspect(j, w);
    if err == NotFound {
      OnNotFoundKeeps(j, w1, job);
    } else if err == Ok && !bare {
      if RunningFlag(c.value.state) {
        OnRunningKeeps(j, w1, job, c.value);
      } else if c.value.state == Exited {
        OnExitedKeeps(j, w1, job, c.value);
      }
    }
  }

  // ---- Whole passes ----

  lemma DispatchKeeps(j: Job, w: World, job: Stored)
    requires Held(w) && Inv(j, w) && w.stored.value.status == job.status
    requires !Terminal(job.status) ==> Funded(j, w)
    ensures var w' := Dispatch(j, w, job).0;
      Inv(j, w') && Held(w') && Onward(w, w')
  {
    if Terminal(job.status) {
      TTLCleanupKeeps(j, w, job);
    } else {
      SyncJobKeeps(j, w, job);
    }
  }

  /** Before the finalizer is taken off no container of the controller is left under any name. */
  lemma FinalizeKeeps(j: Job, w: World, job: Stored)
    requires Inv(j, w) && (w.stored.Some? ==> w.stored.value.deleting)
    ensures var w' := Finalize(j, w, job).0;
      Inv(j, w') && Onward(w, w')
  {
    AwaitKeeps(j, w);
    AwaitDrifts(j, w);
    var (w1, err) := ContainerRemove(j, w, ByName(ContainerName(j)));
    if err != Failure {
      assert forall n :: !Ours(w1, n);
      AwaitKeeps(j, w1);
      AwaitDrifts(j, w1);
    }
  }

  /** The finalizer goes on only if nobody wrote the object since it was read, so not after a user delete. */
  lemma AddFinalizerKeeps(j: Job, w: World, job: Stored)
    requires Inv(j, w) && !job.deleting
    requires w.stored.Some? ==>
      && job.version <= w.stored.value.version
      && (job.version == w.stored.value.version ==> job == w.stored.value)
    ensures var (w1, err, job1) := Update(j, w, job.(finalizers := job.finalizers + {FINALIZER}));
      var w' := if err == Ok then Dispatch(j, w1, job1).0 else w1;
      Inv(j, w') && Onward(w, w')
  {
    AwaitKeeps(j, w);
    AwaitDrifts(j, w);
    var (w1, err, job1) := Update(j, w, job.(finalizers := job.finalizers + {FINALIZER}));
    if err == Ok {
      DispatchKeeps(j, w1, job1);
    }
  }

  /** One pass, from any world that satisfies the invariant, on any tape. */
  lemma ReconcileKeeps(j: Job, w: World)
    requires Inv(j, w)
    ensures var w' := Reconcile(j, w).0;
      Inv(j, w') && Onward(w, w')
  {
    AwaitKeeps(j, w);
    AwaitDrifts(j, w);
    var (w1, err, got) := Get(j, w);
    if err == Ok {
      AwaitKeeps(j, w1);
      AwaitDrifts(j, w1);
      var job := got.value;
      var (w2, client) := Await(j, w1);
      if client.outcome == Done {
        if job.deleting {
          if FINALIZER in job.finalizers {
            FinalizeKeeps(j, w2, job);
          }
        } else if FINALIZER in job.finalizers {
          DispatchKeeps(j, w2, job);
        } else {
          AddFinalizerKeeps(j, w2, job);
        }
      }
    }
  }
}
