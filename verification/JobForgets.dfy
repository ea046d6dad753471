/** When a job that succeeded is run a second time. */
module JobForgets {
  import opened Go
  import opened DockerEngine
  import opened JobDrift
  import opened JobModel
  import opened JobProgress

  /** Nothing but time passes around the calls. */
  ghost predicate TicksOnly(events: seq<Event>) {
    forall i :: 0 <= i < |events| ==> events[i].Tick?
  }

  ghost predicate TicksTape(tape: seq<Choice>) {
    forall i :: 0 <= i < |tape| ==> TicksOnly(tape[i].before)
  }

  lemma {:induction false} OnlyTicks(j: Job, w: World, events: seq<Event>)
    requires TicksOnly(events)
    ensures var v := ApplyAll(j, w, events); v == w.(clock := v.clock)
    decreases |events|
  {
    if events != [] {
      OnlyTicks(j, Apply(j, w, events[0]), events[1..]);
    }
  }

  lemma AwaitTicks(j: Job, w: World)
    requires TicksTape(w.tape)
    ensures var (v, call) := Await(j, w);
      && v == w.(clock := v.clock, tape := if w.tape == [] then [] else w.tape[1..])
      && TicksTape(v.tape) && call.outcome == OutcomeAt(w, 0)
  {
    if w.tape != [] {
      OnlyTicks(j, w.(tape := w.tape[1..]), w.tape[0].before);
    }
  }

  /** What the clock shows at the i-th call from here. */
  function ClockAt(j: Job, w: World, i: nat): int
    decreases i
  {
    if i == 0 then Await(j, w).0.clock else ClockAt(j, Await(j, w).0, i - 1)
  }

  /** The job is unfinished and its container is gone. */
  ghost predicate Forgotten(j: Job, w: World) {
    w.stored.Some? && !Terminal(w.stored.value.status) && ContainerName(j) !in w.engine.containers
  }

  lemma TTLForgets(j: Job, w: World, local: Stored)
    requires TicksTape(w.tape) && ContainerName(j) in w.engine.containers && local.status.completionTime.Some?
    ensures var v := TTLCleanup(j, w, local).0;
      && v.stored == w.stored && v.log == w.log
      && (ContainerName(j) !in v.engine.containers <==>
            && j.spec.ttlSecondsAfterFinished.Some?
            && ClockAt(j, w, 0) - local.status.completionTime.value >= j.spec.ttlSecondsAfterFinished.value * SECOND
            && OutcomeAt(w, 1) != Refused)
  {
    AwaitTicks(j, w);
    AwaitTicks(j, Await(j, w).0);
  }

  lemma {:induction false} SameTicks(j: Job, v: World, w: World, events: seq<Event>)
    requires TicksOnly(events) && v.clock == w.clock
    ensures ApplyAll(j, v, events).clock == ApplyAll(j, w, events).clock
    decreases |events|
  {
    if events != [] {
      SameTicks(j, Apply(j, v, events[0]), Apply(j, w, events[0]), events[1..]);
    }
  }

  lemma SameFuture(j: Job, v: World, w: World)
    requires TicksTape(v.tape) && v.tape == w.tape && v.clock == w.clock
    ensures ClockAt(j, v, 0) == ClockAt(j, w, 0) && OutcomeAt(v, 1) == OutcomeAt(w, 1)
  {
    if v.tape != [] {
      SameTicks(j, v.(tape := v.tape[1..]), w.(tape := w.tape[1..]), v.tape[0].before);
    }
  }

  lemma FinishForgets(j: Job, w: World, done: Stored)
    requires TicksTape(w.tape) && ContainerName(j) in w.engine.containers && done.status.completionTime.Some?
    requires w.stored.Some? && w.stored.value.version == done.version && Terminal(done.status)
    requires !Terminal(w.stored.value.status)
    ensures var v := Finish(j, w, done).0;
      && v.stored.Some? && v.log.starts == w.log.starts
      && (Forgotten(j, v) <==>
            && OutcomeAt(w, 0) == Refused
            && j.spec.ttlSecondsAfterFinished.Some?
            && ClockAt(j, w, 1) - done.status.completionTime.value >= j.spec.ttlSecondsAfterFinished.value * SECOND
            && OutcomeAt(w, 2) != Refused)
      && (Forgotten(j, v) ==> v.stored == w.stored)
  {
    AwaitTicks(j, w);
    var (w1, _, local) := StatusUpdate(j, w, done, false);
    assert OutcomeAt(w, 2) == OutcomeAt(w1, 1) && ClockAt(j, w, 1) == ClockAt(j, w1, 0) by {
      SameFuture(j, Await(j, w).0, w1);
    }
    TTLForgets(j, w1, local);
  }

  /** A container that was seen to exit with 0 is forgotten by that pass exactly if the final status write is
      lost, the TTL is due right away, and the removal takes effect. */
  lemma ForgottenExactly(j: Job, w: World, job: Stored, c: Container)
    requires TicksTape(w.tape) && w.stored == Some(job) && !Terminal(job.status) && Int32(c.exitCode) == 0
    requires ContainerName(j) in w.engine.containers
    ensures var v := OnExited(j, w, job, c).0;
      && v.stored.Some? && v.log.starts == w.log.starts
      && (Forgotten(j, v) <==>
            && OutcomeAt(w, 1) == Refused
            && j.spec.ttlSecondsAfterFinished.Some?
            && ClockAt(j, w, 2) - ClockAt(j, w, 0) >= j.spec.ttlSecondsAfterFinished.value * SECOND
            && OutcomeAt(w, 3) != Refused)
      && (Forgotten(j, v) ==> v.stored == w.stored)
  {
    AwaitTicks(j, w);
    var (w1, now) := Now(j, w);
    AwaitTicks(j, w1);
    var done := job.(status := job.status.(containerID := Some(c.id), exitCode := Some(0),
                                           completionTime := Some(now), phase := PhaseSucceeded));
    assert OutcomeAt(w, 1) == OutcomeAt(w1, 0) && OutcomeAt(w, 3) == OutcomeAt(w1, 2);
    assert ClockAt(j, w, 2) == ClockAt(j, w1, 1);
    FinishForgets(j, w1, done);
  }

  // ---- On every tape ----

  /** The container is still there, unless an outsider removed it. */
  ghost predicate Stays(j: Job, w: World, v: World) {
    && w.log.outsideRemovals <= v.log.outsideRemovals
    && (ContainerName(j) in w.engine.containers ==>
          ContainerName(j) in v.engine.containers || w.log.outsideRemovals < v.log.outsideRemovals)
  }

  /** The cleanup removes a container only once the TTL is over. */
  lemma TTLStays(j: Job, w: World, local: Stored)
    requires local.status.completionTime.Some?
    ensures var v := TTLCleanup(j, w, local).0;
      && v.log.lostWrites == w.log.lostWrites
      && (v.stored.Some? ==> w.stored.Some? && v.stored.value.status == w.stored.value.status)
      && (|| Stays(j, w, v)
          || (&& j.spec.ttlSecondsAfterFinished.Some?
              && v.clock - local.status.completionTime.value >= j.spec.ttlSecondsAfterFinished.value * SECOND))
  {
    AwaitDrifts(j, w);
    AwaitDrifts(j, Await(j, w).0);
  }

  /** However the calls of a pass end, and whoever writes the object in between: a container that was seen to
      exit with 0 goes while the job is unfinished only if the final status write was lost and the TTL is over,
      or an outsider removed it. */
  lemma ForgottenOnlyIf(j: Job, w: World, job: Stored, c: Container)
    requires Int32(c.exitCode) == 0 && ContainerName(j) in w.engine.containers
    ensures var v := OnExited(j, w, job, c).0;
      Forgotten(j, v) ==>
        || w.log.outsideRemovals < v.log.outsideRemovals
        || (&& w.log.lostWrites < v.log.lostWrites
            && j.spec.ttlSecondsAfterFinished.Some?
            && v.clock - Now(j, w).1 >= j.spec.ttlSecondsAfterFinished.value * SECOND)
  {
    AwaitDrifts(j, w);
    var (w1, now) := Now(j, w);
    AwaitDrifts(j, w1);
    var done := job.(status := job.status.(containerID := Some(c.id), exitCode := Some(0),
                                           completionTime := Some(now), phase := PhaseSucceeded));
    var (w2, _, local) := StatusUpdate(j, w1, done, false);
    TTLStays(j, w2, local);
  }

  // ---- The run in which it happens ----

  const LOST := Choice([], Refused, false)

  /** Read, client, inspect and clock go well, the status write is lost, and the rest goes well again. */
  const LOSING_TAPE: seq<Choice> := [SMOOTH, SMOOTH, SMOOTH, SMOOTH, LOST, SMOOTH, SMOOTH]

  lemma {:induction false} NoTicks(j: Job, w: World, i: nat)
    requires forall k :: 0 <= k < |w.tape| ==> w.tape[k].before == []
    ensures ClockAt(j, w, i) == w.clock
    decreases i
  {
    var v := Await(j, w).0;
    if i > 0 {
      NoTicks(j, v, i - 1);
    }
  }

  lemma LosingPass(j: Job, w: World, job: Stored, c: Container)
    requires w.stored == Some(job) && !job.deleting && FINALIZER in job.finalizers && !Terminal(job.status)
    requires ContainerName(j) in w.engine.containers && w.engine.containers[ContainerName(j)] == c
    requires c.state == Exited && Int32(c.exitCode) == 0
    requires j.spec.ttlSecondsAfterFinished.Some? && j.spec.ttlSecondsAfterFinished.value <= 0
    ensures var v := Step(j, w, Pass(LOSING_TAPE));
      Forgotten(j, v) && v.stored == w.stored && v.log.starts == w.log.starts
  {
    var w0 := w.(tape := LOSING_TAPE);
    var w1 := w.(tape := LOSING_TAPE[1..]);
    var w2 := w.(tape := LOSING_TAPE[2..]);
    var w3 := w.(tape := LOSING_TAPE[3..]);
    assert Await(j, w0) == (w1, SMOOTH);
    assert w1.tape[1..] == w2.tape && Await(j, w1) == (w2, SMOOTH);
    assert w2.tape[1..] == w3.tape && Await(j, w2) == (w3, SMOOTH);
    assert Reconcile(j, w0) == OnExited(j, w3, job, c);
    assert w3.tape == [SMOOTH, LOST, SMOOTH, SMOOTH];
    ForgottenExactly(j, w3, job, c);
    NoTicks(j, w3, 2);
  }

  lemma StartsAnew(j: Job, w: World)
    requires Forgotten(j, w) && !w.stored.value.deleting && FINALIZER in w.stored.value.finalizers
    ensures Step(j, w, SMOOTH_PASS).log.starts == w.log.starts + 1
  {
    var job := w.stored.value;
    var w0 := w.(tape := SmoothTape(CALLS));
    SmoothReconcile(j, w0, job, CALLS - 2);
    var w1 := w0.(tape := w0.tape[2..]);
    SmoothInspect(j, w1, job, CALLS - 3);
    var w2 := w1.(tape := w1.tape[1..]);
    SmoothLaunch(j, w2, CALLS - 6);
    var (w3, err, id) := CreateAndStart(j, w2);
    AwaitSmooth(j, w3, CALLS - 6);
    AwaitSmooth(j, Await(j, w3).0, CALLS - 7);
  }

  /** A job whose TTL is zero or less, whose container exits with 0 and whose final status write is lost, is
      started again by the next pass. */
  lemma SucceededRunsAgain(j: Job, w: World, k: nat)
    requires InAttempt(j, w, k) && j.spec.ttlSecondsAfterFinished.Some? && j.spec.ttlSecondsAfterFinished.value <= 0
    ensures Step(j, Step(j, Step(j, w, Exit(j, 0)), Pass(LOSING_TAPE)), SMOOTH_PASS).log.starts == k + 1
  {
    var w1 := Step(j, w, Exit(j, 0));
    LosingPass(j, w1, w1.stored.value, w1.engine.containers[ContainerName(j)]);
    StartsAnew(j, Step(j, w1, Pass(LOSING_TAPE)));
  }
}
