/** The times that a DockerJob records. */
module JobTimes {
  import opened Go
  import opened DockerEngine
  import opened JobModel
  import opened JobDrift
  import opened JobSafety
  import opened JobRuns

  /** Time passes, and nobody writes the status. */
  ghost predicate Unwritten(w: World, v: World) {
    && w.clock <= v.clock
    && (v.stored.Some? ==> w.stored.Some? && v.stored.value.status == w.stored.value.status)
  }

  /** A stored time between two readings of the clock. */
  predicate Stamped(t: Option<int>, from: int, to: int) {
    t.Some? && t.value % SECOND == 0 && WholeSeconds(from) <= t.value <= to
  }

  predicate Dates(s: Status, t: Status, from: int, to: int) {
    && (|| t.startTime == s.startTime
        || (t.completionTime == s.completionTime && Stamped(t.startTime, from, to)))
    && (t.completionTime == s.completionTime || t.completionTime == None || Stamped(t.completionTime, from, to))
  }

  /** What is recorded anew is the time of recording. */
  ghost predicate Dated(w: World, v: World) {
    && w.clock <= v.clock
    && (v.stored.Some? ==>
          w.stored.Some? && Dates(w.stored.value.status, v.stored.value.status, w.clock, v.clock))
  }

  /** The controller works on the status that was stored in w0. */
  ghost predicate CopyOf(w0: World, w: World, job: Stored) {
    Unwritten(w0, w) && w0.stored.Some? && job.status == w0.stored.value.status && Serialised(job.status)
  }

  lemma AwaitUnwritten(j: Job, w: World)
    ensures Unwritten(w, Await(j, w).0)
  {
    AwaitDrifts(j, w);
  }

  lemma LaunchUnwritten(j: Job, w: World)
    ensures Unwritten(w, CreateAndStart(j, w).0)
  {
    AwaitUnwritten(j, w);
    var (w1, pull) := Await(j, w);
    AwaitUnwritten(j, w1);
    var (w2, err, id) := ContainerCreate(j, w1);
    AwaitUnwritten(j, w2);
  }

  lemma CleanupUnwritten(j: Job, w: World, job: Stored)
    ensures Unwritten(w, TTLCleanup(j, w, job).0)
  {
    AwaitUnwritten(j, w);
    AwaitUnwritten(j, Await(j, w).0);
  }

  /** A status write that names a time between the beginning of the pass and now. */
  lemma WriteDates(j: Job, w0: World, w: World, local: Stored, started: bool)
    requires Unwritten(w0, w) && w0.stored.Some?
    requires Dates(w0.stored.value.status, Persist(local.status), w0.clock, w.clock)
    ensures var (v, _, _) := StatusUpdate(j, w, local, started); Dated(w0, v)
  {
    AwaitUnwritten(j, w);
  }

  lemma Recorded(from: int, now: int)
    requires from <= now
    ensures Stamped(Some(WholeSeconds(now)), from, now)
  {
  }

  lemma FinishDates(j: Job, w0: World, w: World, done: Stored)
    requires Unwritten(w0, w) && w0.stored.Some?
    requires Dates(w0.stored.value.status, Persist(done.status), w0.clock, w.clock)
    ensures Dated(w0, Finish(j, w, done).0)
  {
    WriteDates(j, w0, w, done, false);
    var (w1, _, local) := StatusUpdate(j, w, done, false);
    CleanupUnwritten(j, w1, local);
  }

  lemma OnNotFoundDates(j: Job, w0: World, w: World, job: Stored)
    requires CopyOf(w0, w, job)
    ensures Dated(w0, OnNotFound(j, w, job).0)
  {
    LaunchUnwritten(j, w);
    var (w1, err, id) := CreateAndStart(j, w);
    AwaitUnwritten(j, w1);
    var (w2, now) := Now(j, w1);
    Recorded(w0.clock, now);
    var status := job.status.(phase := PhaseRunning, startTime := Some(now),
                              attempts := Int32(job.status.attempts + 1), containerID := Some(id));
    WriteDates(j, w0, w2, job.(status := status), true);
  }

  lemma OnRunningDates(j: Job, w0: World, w: World, job: Stored, c: Container)
    requires CopyOf(w0, w, job)
    ensures Dated(w0, OnRunning(j, w, job, c).0)
  {
    var status := job.status.(phase := PhaseRunning, containerID := Some(c.id));
    WriteDates(j, w0, w, job.(status := status), false);
    AwaitUnwritten(j, w);
    var (w1, _) := Now(j, w);
    WriteDates(j, w0, w1, job.(status := status), false);
    AwaitUnwritten(j, w1);
    var (w2, _) := ContainerStop(j, w1, ById(ContainerName(j), c.id));
    AwaitUnwritten(j, w2);
    var (w3, _) := ContainerRemove(j, w2, ById(ContainerName(j), c.id));
    AwaitUnwritten(j, w3);
    var (w4, now) := Now(j, w3);
    Recorded(w0.clock, now);
    FinishDates(j, w0, w4, job.(status := job.status.(phase := PhaseFailed, containerID := Some(c.id),
                                                      completionTime := Some(now))));
  }

  lemma RetryDates(j: Job, w0: World, w: World, job: Stored, c: Container)
    requires Unwritten(w0, w) && w0.stored.Some?
    requires Dates(w0.stored.value.status, Persist(job.status), w0.clock, w.clock)
    requires PersistTime(job.status.startTime) == w0.stored.value.status.startTime
    ensures Dated(w0, Retry(j, w, job, c).0)
  {
    AwaitUnwritten(j, w);
    var (w1, _) := ContainerRemove(j, w, ById(ContainerName(j), c.id));
    LaunchUnwritten(j, w1);
    var (w2, err, id) := CreateAndStart(j, w1);
    WriteDates(j, w0, w2, job.(status := job.status.(phase := PhaseFailed)), false);
    var again := job.status.(attempts := Int32(job.status.attempts + 1), phase := PhaseRunning,
                             containerID := Some(id), exitCode := None, completionTime := None);
    WriteDates(j, w0, w2, job.(status := again), true);
  }

  lemma OnExitedDates(j: Job, w0: World, w: World, job: Stored, c: Container)
    requires CopyOf(w0, w, job)
    ensures Dated(w0, OnExited(j, w, job, c).0)
  {
    AwaitUnwritten(j, w);
    var (w1, now) := Now(j, w);
    Recorded(w0.clock, now);
    var status := job.status.(containerID := Some(c.id), exitCode := Some(Int32(c.exitCode)),
                              completionTime := Some(now));
    FinishDates(j, w0, w1, job.(status := status.(phase := PhaseSucceeded)));
    FinishDates(j, w0, w1, job.(status := status.(phase := PhaseFailed)));
    RetryDates(j, w0, w1, job.(status := status), c);
  }

  lemma DispatchDates(j: Job, w0: World, w: World, job: Stored)
    requires CopyOf(w0, w, job)
    ensures Dated(w0, Dispatch(j, w, job).0)
  {
    CleanupUnwritten(j, w, job);
    AwaitUnwritten(j, w);
    var (w1, err, c, bare) := ContainerInspect(j, w);
    OnNotFoundDates(j, w0, w1, job);
    if err == Ok {
      OnRunningDates(j, w0, w1, job, c.value);
      OnExitedDates(j, w0, w1, job, c.value);
    }
  }

  /** On any tape, a start or completion time that a pass records is the time of recording, in whole
      seconds: no earlier than the second in which the pass began, and not later than its end. */
  lemma PassDates(j: Job, w: World)
    requires Safe(j, w)
    ensures Dated(w, Reconcile(j, w).0)
  {
    AwaitUnwritten(j, w);
    AwaitDrifts(j, w);
    var (w1, err, got) := Get(j, w);
    if err == Ok {
      var job := got.value;
      AwaitUnwritten(j, w1);
      var (w2, client) := Await(j, w1);
      AwaitUnwritten(j, w2);
      DispatchDates(j, w, w2, job);
      var (w3, err3, job3) := Update(j, w2, job.(finalizers := job.finalizers + {FINALIZER}));
      if job.deleting {
        var (v, _) := ContainerRemove(j, w2, ByName(ContainerName(j)));
        AwaitUnwritten(j, v);
      } else if err3 == Ok {
        DispatchDates(j, w, w3, job3);
      }
    }
  }

  /** Recorded times lie in the past, and a job does not end before it starts. */
  ghost predicate TimesInOrder(w: World) {
    w.stored.Some? ==>
      var s := w.stored.value.status;
      && (s.startTime.Some? ==> s.startTime.value <= w.clock)
      && (s.completionTime.Some? ==> s.completionTime.value <= w.clock)
      && (s.startTime.Some? && s.completionTime.Some? ==> s.startTime.value <= s.completionTime.value)
  }

  lemma WholeBefore(t: int, now: int)
    requires t % SECOND == 0 && t <= now
    ensures t <= WholeSeconds(now)
  {
  }

  lemma StepKeepsOrder(j: Job, w: World, m: Move)
    requires Inv(j, w) && TimesInOrder(w)
    ensures TimesInOrder(Step(j, w, m))
  {
    match m
    case Outside(event) => EventDrifts(j, w, event);
    case Pass(tape) =>
      PassDates(j, w.(tape := tape));
      StepKeeps(j, w, m);
      if w.stored.Some? && w.stored.value.status.startTime.Some? {
        WholeBefore(w.stored.value.status.startTime.value, w.clock);
      }
  }

  /** In every run StartTime is at most CompletionTime, and neither lies in the future. */
  lemma {:induction false} TimesStayInOrder(j: Job, w: World, moves: seq<Move>)
    requires Inv(j, w) && TimesInOrder(w)
    ensures TimesInOrder(Run(j, w, moves))
    decreases |moves|
  {
    if moves != [] {
      StepKeeps(j, w, moves[0]);
      StepKeepsOrder(j, w, moves[0]);
      TimesStayInOrder(j, Step(j, w, moves[0]), moves[1..]);
    }
  }
}
