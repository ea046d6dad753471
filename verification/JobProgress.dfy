/** What the DockerJob controller achieves when its calls succeed. */
module JobProgress {
  import opened Go
  import opened DockerEngine
  import opened JobModel
  import opened JobSafety

  /** Nothing happens around the call and it succeeds. */
  const SMOOTH := Choice([], Done, false)

  function SmoothTape(n: nat): (t: seq<Choice>)
    ensures |t| == n && forall i :: 0 <= i < n ==> t[i] == SMOOTH
  {
    seq(n, i => SMOOTH)
  }

  ghost predicate Smooth(w: World, n: nat) {
    |w.tape| >= n && forall i :: 0 <= i < |w.tape| ==> w.tape[i] == SMOOTH
  }

  lemma AwaitSmooth(j: Job, w: World, n: nat)
    requires n > 0 && Smooth(w, n)
    ensures Await(j, w) == (w.(tape := w.tape[1..]), SMOOTH)
    ensures Smooth(w.(tape := w.tape[1..]), n - 1)
  {
  }

  /** A smooth pass over a live job gets to its status: two calls are spent before. */
  lemma SmoothReconcile(j: Job, w: World, job: Stored, n: nat)
    requires Smooth(w, n + 2) && w.stored == Some(job) && !job.deleting && FINALIZER in job.finalizers
    ensures var w' := w.(tape := w.tape[2..]);
      Smooth(w', n) && Reconcile(j, w) == Dispatch(j, w', job)
  {
    AwaitSmooth(j, w, n + 2);
    var w1 := w.(tape := w.tape[1..]);
    AwaitSmooth(j, w1, n + 1);
    assert w1.tape[1..] == w.tape[2..];
  }

  lemma SmoothInspect(j: Job, w: World, job: Stored, n: nat)
    requires Smooth(w, n + 1) && !Terminal(job.status)
    ensures var w' := w.(tape := w.tape[1..]);
      && Smooth(w', n)
      && (ContainerName(j) !in w.engine.containers ==> Dispatch(j, w, job) == OnNotFound(j, w', job))
      && (ContainerName(j) in w.engine.containers ==>
            var c := w.engine.containers[ContainerName(j)];
            && (RunningFlag(c.state) ==> Dispatch(j, w, job) == OnRunning(j, w', job, c))
            && (c.state == Exited ==> Dispatch(j, w, job) == OnExited(j, w', job, c)))
  {
    AwaitSmooth(j, w, n + 1);
  }

  /** The container a successful start leaves under the job's name. */
  ghost predicate Launched(j: Job, w: World) {
    && ContainerName(j) in w.engine.containers
    && var c := w.engine.containers[ContainerName(j)];
      c.state == Running && c.origin == ByOperator && c.config == Completed(w.engine, JobConfig(j))
  }

  lemma SmoothLaunch(j: Job, w: World, n: nat)
    requires Smooth(w, n + 3) && ContainerName(j) !in w.engine.containers
    ensures var (w', err, id) := CreateAndStart(j, w);
      && err == Ok && Smooth(w', n) && Launched(j, w')
      && w'.stored == w.stored && w'.log == w.log.(starts := w.log.starts + 1) && w'.clock == w.clock
  {
    AwaitSmooth(j, w, n + 3);
    var w1 := Await(j, w).0;
    AwaitSmooth(j, w1, n + 2);
    var (w2, err, id) := ContainerCreate(j, w1);
    AwaitSmooth(j, w2, n + 1);
  }

  lemma SmoothStatus(j: Job, w: World, local: Stored, started: bool, n: nat)
    requires Smooth(w, n + 1) && w.stored.Some? && w.stored.value.version == local.version
    ensures var (w', err, job') := StatusUpdate(j, w, local, started);
      && err == Ok && Smooth(w', n)
      && job' == w.stored.value.(status := Persist(local.status), version := local.version + 1)
      && w' == w.(tape := w.tape[1..], stored := Some(job'),
                  log := if started then w.log.(recorded := w.log.recorded + 1) else w.log)
  {
    AwaitSmooth(j, w, n + 1);
  }

  // ---- A job whose container keeps failing ----

  /** The job is Running in its k-th attempt, and nothing was lost so far. */
  ghost predicate InAttempt(j: Job, w: World, k: nat) {
    && w.stored.Some? && !w.stored.value.deleting && FINALIZER in w.stored.value.finalizers
    && w.stored.value.status.phase == PhaseRunning
    && w.stored.value.status.attempts == Int32(k)
    && w.stored.value.status.startTime.Some?
    && w.log.starts == k
    && Launched(j, w)
  }

  const CALLS := 12  // more than any pass makes

  function Exit(j: Job, code: int): Move {
    Outside(StateChange(ContainerName(j), Exited, code))
  }

  const SMOOTH_PASS := Pass(SmoothTape(CALLS))

  /** The first pass adds the finalizer and starts the container. */
  lemma FirstPass(j: Job, w: World)
    requires Initial(w) && ContainerName(j) !in w.engine.containers
    ensures var v := Step(j, w, SMOOTH_PASS);
      && InAttempt(j, v, 1)
      && v.stored.value.status.startTime == Some(WholeSeconds(w.clock))
      && v.stored.value.status.containerID == Some(v.engine.containers[ContainerName(j)].id)
  {
    var job := w.stored.value;
    var w0 := w.(tape := SmoothTape(CALLS));
    AwaitSmooth(j, w0, CALLS);
    var w1 := Await(j, w0).0;
    AwaitSmooth(j, w1, CALLS - 1);
    var w2 := Await(j, w1).0;
    AwaitSmooth(j, w2, CALLS - 2);
    var (w3, err3, job3) := Update(j, w2, job.(finalizers := job.finalizers + {FINALIZER}));
    SmoothInspect(j, w3, job3, CALLS - 4);
    var w4 := w3.(tape := w3.tape[1..]);
    SmoothLaunch(j, w4, CALLS - 7);
    var (w5, err5, id) := CreateAndStart(j, w4);
    AwaitSmooth(j, w5, CALLS - 7);
    var (w6, now) := Now(j, w5);
    var status := job3.status.(phase := PhaseRunning, startTime := Some(now), attempts := 1, containerID := Some(id));
    SmoothStatus(j, w6, job3.(status := status), true, CALLS - 9);
  }

  lemma SmoothRelaunch(j: Job, w: World, job: Stored, n: nat)
    requires Smooth(w, n + 4) && ContainerName(j) !in w.engine.containers
    requires w.stored.Some? && w.stored.value.version == job.version
    requires !w.stored.value.deleting && FINALIZER in w.stored.value.finalizers && job.status.startTime.Some?
    ensures var v := Relaunch(j, w, job).0;
      && Launched(j, v) && v.log.starts == w.log.starts + 1
      && v.stored.Some? && !v.stored.value.deleting && FINALIZER in v.stored.value.finalizers
      && v.stored.value.status.phase == PhaseRunning && v.stored.value.status.startTime.Some?
      && v.stored.value.status.attempts == Int32(job.status.attempts + 1)
  {
    SmoothLaunch(j, w, n + 1);
    var (w1, err, id) := CreateAndStart(j, w);
    var again := job.status.(attempts := Int32(job.status.attempts + 1), phase := PhaseRunning, containerID := Some(id),
                             exitCode := None, completionTime := None);
    SmoothStatus(j, w1, job.(status := again), true, n);
  }

  /** The end of a pass over a finished job. */
  lemma SmoothTTL(j: Job, w: World, job: Stored, n: nat)
    requires Smooth(w, n + 2)
    ensures var (w', result) := TTLCleanup(j, w, job);
      && w'.stored == w.stored && w'.log == w.log && w'.clock == w.clock
      && (if j.spec.ttlSecondsAfterFinished.None? || job.status.completionTime.None? then
            w'.engine == w.engine && result == Finished
          else
            var expiry := job.status.completionTime.value + j.spec.ttlSecondsAfterFinished.value * SECOND;
            if w.clock < expiry then w'.engine == w.engine && result == Again(expiry - w.clock)
            else ContainerName(j) !in w'.engine.containers && result == Finished)
  {
    AwaitSmooth(j, w, n + 2);
    AwaitSmooth(j, w.(tape := w.tape[1..]), n + 1);
  }

  lemma SmoothFinish(j: Job, w: World, job: Stored, n: nat)
    requires Smooth(w, n + 3) && w.stored.Some? && w.stored.value.version == job.version
    ensures var v := Finish(j, w, job).0;
      && v.stored.Some? && v.stored.value.status == Persist(job.status) && v.log.starts == w.log.starts
      && v.stored.value.deleting == w.stored.value.deleting && v.stored.value.finalizers == w.stored.value.finalizers
  {
    SmoothStatus(j, w, job, false, n + 2);
    var (w1, _, job1) := StatusUpdate(j, w, job, false);
    SmoothTTL(j, w1, job1, n);
  }

  /** A smooth pass over a running job whose container has exited comes to OnExited. */
  lemma ExitIsSeen(j: Job, w: World, k: nat, code: int)
    requires InAttempt(j, w, k)
    ensures var w0 := Step(j, w, Exit(j, code));
      var v := w0.(tape := SmoothTape(CALLS)[2..][1..]);
      && Smooth(v, CALLS - 3) && ContainerName(j) in w0.engine.containers
      && w0.engine.containers[ContainerName(j)].exitCode == code
      && w0.stored == w.stored && w0.log == w.log
      && Reconcile(j, w0.(tape := SmoothTape(CALLS))) ==
         OnExited(j, v, w.stored.value, w0.engine.containers[ContainerName(j)])
  {
    var w0 := Step(j, w, Exit(j, code)).(tape := SmoothTape(CALLS));
    SmoothReconcile(j, w0, w.stored.value, CALLS - 2);
    SmoothInspect(j, w0.(tape := w0.tape[2..]), w.stored.value, CALLS - 3);
  }

  lemma FailedExit(j: Job, w: World, job: Stored, c: Container)
    requires Smooth(w, CALLS - 3) && Int32(c.exitCode) != 0 && w.stored == Some(job)
    requires !job.deleting && FINALIZER in job.finalizers && job.status.startTime.Some?
    requires ContainerName(j) in w.engine.containers && w.engine.containers[ContainerName(j)] == c
    ensures var v := OnExited(j, w, job, c).0;
      && v.stored.Some? && !v.stored.value.deleting && FINALIZER in v.stored.value.finalizers
      && (if job.status.attempts <= j.spec.backoffLimit then
            && Launched(j, v) && v.log.starts == w.log.starts + 1
            && v.stored.value.status.phase == PhaseRunning && v.stored.value.status.startTime.Some?
            && v.stored.value.status.attempts == Int32(job.status.attempts + 1)
          else
            && v.stored.value.status.phase == PhaseFailed && v.log.starts == w.log.starts
            && v.stored.value.status.exitCode == Some(Int32(c.exitCode)))
  {
    AwaitSmooth(j, w, CALLS - 3);
    var (w1, now) := Now(j, w);
    var status := job.status.(containerID := Some(c.id), exitCode := Some(Int32(c.exitCode)),
                              completionTime := Some(now));
    if job.status.attempts <= j.spec.backoffLimit {
      AwaitSmooth(j, w1, CALLS - 4);
      var (w2, _) := ContainerRemove(j, w1, ById(ContainerName(j), c.id));
      SmoothRelaunch(j, w2, job.(status := status), CALLS - 9);
    } else {
      SmoothFinish(j, w1, job.(status := status.(phase := PhaseFailed)), CALLS - 7);
    }
  }

  /** A failing attempt is followed by another one up to the limit, and by Failed after it. */
  lemma FailingAttempt(j: Job, w: World, k: nat, code: int)
    requires InAttempt(j, w, k) && Int32(code) != 0
    ensures var w' := Step(j, Step(j, w, Exit(j, code)), SMOOTH_PASS);
      if Int32(k) <= j.spec.backoffLimit then InAttempt(j, w', k + 1)
      else
        && w'.stored.Some? && w'.stored.value.status.phase == PhaseFailed
        && w'.stored.value.status.exitCode == Some(Int32(code)) && w'.log.starts == k
  {
    ExitIsSeen(j, w, k, code);
    var w0 := Step(j, w, Exit(j, code));
    FailedExit(j, w0.(tape := SmoothTape(CALLS)[2..][1..]), w.stored.value, w0.engine.containers[ContainerName(j)]);
    Int32Successor(k);
  }

  function FailingCycles(j: Job, codes: seq<int>): seq<Move> {
    if codes == [] then [] else [Exit(j, codes[0]), SMOOTH_PASS] + FailingCycles(j, codes[1..])
  }

  /** A failure, and the smooth pass after it. */
  function FailOnce(j: Job, w: World, code: int): World {
    Step(j, Step(j, w, Exit(j, code)), SMOOTH_PASS)
  }

  /** One cycle, then the others. */
  lemma FirstCycle(j: Job, w: World, codes: seq<int>)
    requires codes != []
    ensures Run(j, w, FailingCycles(j, codes)) ==
            Run(j, FailOnce(j, w, codes[0]), FailingCycles(j, codes[1..]))
  {
    var moves := FailingCycles(j, codes);
    assert moves[1..][1..] == FailingCycles(j, codes[1..]);
    var w1 := Step(j, w, moves[0]);
    assert Run(j, w1, moves[1..]) == Run(j, Step(j, w1, moves[1]), FailingCycles(j, codes[1..]));
  }

  lemma {:induction false} FailingFrom(j: Job, w: World, k: nat, codes: seq<int>)
    requires InAttempt(j, w, k) && 1 <= k <= Max(j.spec.backoffLimit, 0) + 1 < TWO_31
    requires |codes| == Max(j.spec.backoffLimit, 0) + 2 - k
    requires forall i :: 0 <= i < |codes| ==> Int32(codes[i]) != 0
    ensures var w' := Run(j, w, FailingCycles(j, codes));
      && w'.stored.Some? && w'.stored.value.status.phase == PhaseFailed
      && w'.log.starts == Max(j.spec.backoffLimit, 0) + 1
    decreases |codes|
  {
    FailingAttempt(j, w, k, codes[0]);
    FirstCycle(j, w, codes);
    var w2 := Step(j, Step(j, w, Exit(j, codes[0])), SMOOTH_PASS);
    if k <= j.spec.backoffLimit {
      FailingFrom(j, w2, k + 1, codes[1..]);
    } else {
      assert codes[1..] == [];
    }
  }

  /** A job whose container fails every time is started exactly max(backoffLimit, 0) + 1 times: the
      cap of every run is reached. */
  lemma FailsAfterExactly(j: Job, w: World, codes: seq<int>)
    requires Initial(w) && ContainerName(j) !in w.engine.containers
    requires Max(j.spec.backoffLimit, 0) + 1 < TWO_31
    requires |codes| == Max(j.spec.backoffLimit, 0) + 1
    requires forall i :: 0 <= i < |codes| ==> Int32(codes[i]) != 0
    ensures var w' := Run(j, w, [SMOOTH_PASS] + FailingCycles(j, codes));
      && w'.stored.Some? && w'.stored.value.status.phase == PhaseFailed
      && w'.log.starts == Max(j.spec.backoffLimit, 0) + 1
  {
    FirstPass(j, w);
    var moves := [SMOOTH_PASS] + FailingCycles(j, codes);
    assert moves[1..] == FailingCycles(j, codes);
    FailingFrom(j, Step(j, w, SMOOTH_PASS), 1, codes);
  }

  lemma AlwaysRetried(j: Job, w: World, k: nat, code: int)
    requires InAttempt(j, w, k) && j.spec.backoffLimit == 0x7fff_ffff && Int32(code) != 0
    ensures InAttempt(j, FailOnce(j, w, code), k + 1)
  {
    FailingAttempt(j, w, k, code);
  }

  function FailAll(j: Job, w: World, codes: seq<int>): World
    decreases |codes|
  {
    if codes == [] then w else FailAll(j, FailOnce(j, w, codes[0]), codes[1..])
  }

  lemma {:induction false} CyclesFailAll(j: Job, w: World, codes: seq<int>)
    ensures Run(j, w, FailingCycles(j, codes)) == FailAll(j, w, codes)
    decreases |codes|
  {
    if codes != [] {
      FirstCycle(j, w, codes);
      CyclesFailAll(j, FailOnce(j, w, codes[0]), codes[1..]);
    }
  }

  lemma {:induction false} AlwaysRetriedAll(j: Job, w: World, k: nat, codes: seq<int>, n: nat)
    requires InAttempt(j, w, k) && j.spec.backoffLimit == 0x7fff_ffff && n == k + |codes|
    requires forall code :: code in codes ==> Int32(code) != 0
    ensures InAttempt(j, FailAll(j, w, codes), n)
    decreases |codes|
  {
    if codes == [] {
      assert n == k;
    } else {
      AlwaysRetried(j, w, k, codes[0]);
      assert forall code :: code in codes[1..] ==> code in codes;
      AlwaysRetriedAll(j, FailOnce(j, w, codes[0]), k + 1, codes[1..], n);
    }
  }

  /** A backoff limit of 2^31 - 1 is no limit: Attempts is an int32, so it never gets past it, and the
      container is started again after every failure. */
  lemma UnlimitedRetries(j: Job, w: World, k: nat, codes: seq<int>)
    requires InAttempt(j, w, k) && j.spec.backoffLimit == 0x7fff_ffff
    requires forall code :: code in codes ==> Int32(code) != 0
    ensures Run(j, w, FailingCycles(j, codes)).log.starts == k + |codes|
  {
    CyclesFailAll(j, w, codes);
    AlwaysRetriedAll(j, w, k, codes, k + |codes|);
  }

  /** A container that exits with 0 makes the job Succeeded. */
  lemma Succeeds(j: Job, w: World, k: nat)
    requires InAttempt(j, w, k)
    ensures var w' := Step(j, Step(j, w, Exit(j, 0)), SMOOTH_PASS);
      && w'.stored.Some? && w'.stored.value.status.phase == PhaseSucceeded
      && w'.stored.value.status.exitCode == Some(0) && w'.log.starts == k
  {
    ExitIsSeen(j, w, k, 0);
    var w0 := Step(j, w, Exit(j, 0));
    var v := w0.(tape := SmoothTape(CALLS)[2..][1..]);
    AwaitSmooth(j, v, CALLS - 3);
    var (w1, now) := Now(j, v);
    var job, c := w.stored.value, w0.engine.containers[ContainerName(j)];
    SmoothFinish(j, w1, job.(status := job.status.(containerID := Some(c.id), exitCode := Some(0),
                                                   completionTime := Some(now), phase := PhaseSucceeded)), CALLS - 7);
  }
}
