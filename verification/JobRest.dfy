/** Runs in which the DockerJob controller has nothing left to do but wait. */
module JobRest {
  import opened Go
  import opened DockerEngine
  import opened JobDrift
  import opened JobModel
  import opened JobProgress

  /** Nobody deletes the job or touches the job's container from outside. */
  predicate Harmless(j: Job, e: Event) {
    match e
    case Tick(_) => true
    case UserDelete => false
    case ForeignFinalizers(_) => true
    case StateChange(name, _, _) => name != ContainerName(j)
    case OutsideRemove(name) => name != ContainerName(j)
    case OutsideCreate(_, _) => true
  }

  ghost predicate HarmlessAll(j: Job, events: seq<Event>) {
    forall e :: e in events ==> Harmless(j, e)
  }

  ghost predicate HarmlessTape(j: Job, tape: seq<Choice>) {
    forall i :: 0 <= i < |tape| ==> HarmlessAll(j, tape[i].before)
  }

  ghost predicate HarmlessMove(j: Job, m: Move) {
    match m
    case Pass(tape) => HarmlessTape(j, tape)
    case Outside(event) => Harmless(j, event)
  }

  /** The job is live and its status is s. */
  ghost predicate LiveWith(w: World, s: Status) {
    w.stored.Some? && !w.stored.value.deleting && FINALIZER in w.stored.value.finalizers && w.stored.value.status == s
  }

  ghost predicate Holds(j: Job, w: World, c: Container) {
    ContainerName(j) in w.engine.containers && w.engine.containers[ContainerName(j)] == c
  }

  /** Only time passes, as far as the job is concerned. */
  ghost predicate Waited(j: Job, w: World, w': World, s: Status, c: Container) {
    && LiveWith(w', s)
    && (Holds(j, w, c) ==> Holds(j, w', c))
    && w'.log.starts == w.log.starts
    && w.clock <= w'.clock
  }

  lemma {:induction false} EventsWait(j: Job, w: World, events: seq<Event>, s: Status, c: Container)
    requires HarmlessAll(j, events) && LiveWith(w, s)
    ensures Waited(j, w, ApplyAll(j, w, events), s, c)
    decreases |events|
  {
    if events != [] {
      assert Harmless(j, events[0]);
      var w1 := Apply(j, w, events[0]);
      assert Waited(j, w, w1, s, c);
      EventsWait(j, w1, events[1..], s, c);
    }
  }

  lemma AwaitWaits(j: Job, w: World, s: Status, c: Container)
    requires HarmlessTape(j, w.tape) && LiveWith(w, s)
    ensures var w' := Await(j, w).0; HarmlessTape(j, w'.tape) && Waited(j, w, w', s, c)
  {
    if w.tape != [] {
      TapeAfterEvents(j, w.(tape := w.tape[1..]), w.tape[0].before);
      EventsWait(j, w.(tape := w.tape[1..]), w.tape[0].before, s, c);
    }
  }

  // ---- Finished jobs ----

  /** The container of a finished job is due for removal from this time on. */
  ghost predicate Due(j: Job, s: Status, clock: int) {
    && s.completionTime.Some?
    && j.spec.ttlSecondsAfterFinished.Some?
    && clock >= s.completionTime.value + j.spec.ttlSecondsAfterFinished.value * SECOND
  }

  lemma TTLWaits(j: Job, w: World, s: Status, c: Container)
    requires HarmlessTape(j, w.tape) && LiveWith(w, s)
    ensures var v := TTLCleanup(j, w, w.stored.value).0;
      && LiveWith(v, s) && w.clock <= v.clock && v.log.starts == w.log.starts
      && (Holds(j, w, c) && !Due(j, s, v.clock) ==> Holds(j, v, c))
  {
    AwaitWaits(j, w, s, c);
    AwaitWaits(j, Await(j, w).0, s, c);
  }

  lemma FinishedStep(j: Job, w: World, m: Move, s: Status, c: Container)
    requires LiveWith(w, s) && Terminal(s) && HarmlessMove(j, m)
    ensures var w' := Step(j, w, m);
      && LiveWith(w', s) && w.clock <= w'.clock && w'.log.starts == w.log.starts
      && (Holds(j, w, c) && !Due(j, s, w'.clock) ==> Holds(j, w', c))
  {
    match m
    case Outside(event) =>
    case Pass(tape) =>
      var w0 := w.(tape := tape);
      AwaitWaits(j, w0, s, c);
      var w1 := Await(j, w0).0;
      AwaitWaits(j, w1, s, c);
      TTLWaits(j, Await(j, w1).0, s, c);
  }

  lemma {:induction false} FinishedRun(j: Job, w: World, moves: seq<Move>, s: Status, c: Container)
    requires LiveWith(w, s) && Terminal(s) && (forall i :: 0 <= i < |moves| ==> HarmlessMove(j, moves[i]))
    ensures var w' := Run(j, w, moves);
      && LiveWith(w', s) && w.clock <= w'.clock
      && (Holds(j, w, c) && !Due(j, s, w'.clock) ==> Holds(j, w', c))
    decreases |moves|
  {
    if moves != [] {
      FinishedStep(j, w, moves[0], s, c);
      FinishedRun(j, Step(j, w, moves[0]), moves[1..], s, c);
    }
  }

  /** The controller leaves the container of a finished job alone until the recorded completion
      time plus the TTL, and for ever without a TTL. */
  lemma FinishedContainerIsKept(j: Job, w: World, moves: seq<Move>, c: Container)
    requires w.stored.Some? && LiveWith(w, w.stored.value.status) && Terminal(w.stored.value.status) && Holds(j, w, c)
    requires forall i :: 0 <= i < |moves| ==> HarmlessMove(j, moves[i])
    ensures var w' := Run(j, w, moves);
      !Due(j, w.stored.value.status, w'.clock) ==> Holds(j, w', c)
  {
    FinishedRun(j, w, moves, w.stored.value.status, c);
  }

  // ---- The pass that finishes the job ----

  lemma LocalTTLWaits(j: Job, w: World, local: Stored, s: Status, c: Container)
    requires HarmlessTape(j, w.tape) && LiveWith(w, s) && Holds(j, w, c)
    ensures var v := TTLCleanup(j, w, local).0; w.clock <= v.clock && (Holds(j, v, c) || Due(j, local.status, v.clock))
  {
    AwaitWaits(j, w, s, c);
    AwaitWaits(j, Await(j, w).0, s, c);
  }

  lemma FinishWaits(j: Job, w: World, done: Stored, s: Status, c: Container)
    requires HarmlessTape(j, w.tape) && LiveWith(w, s) && Holds(j, w, c)
    ensures var v := Finish(j, w, done).0; Holds(j, v, c) || Due(j, Persist(done.status), v.clock)
  {
    AwaitWaits(j, w, s, c);
    var (w1, _, local) := StatusUpdate(j, w, done, false);
    LocalTTLWaits(j, w1, local, w1.stored.value.status, c);
  }

  /** The pass that finds the container exited and finishes the job does not remove it any earlier either,
      whether its status write is stored or lost: the recorded completion time is the time of that pass. */
  lemma FinishingPassKeepsContainer(j: Job, w: World, job: Stored, c: Container)
    requires HarmlessTape(j, w.tape) && LiveWith(w, job.status) && Holds(j, w, c)
    requires Int32(c.exitCode) == 0 || job.status.attempts > j.spec.backoffLimit
    ensures var v := OnExited(j, w, job, c).0;
      Holds(j, v, c) || (&& j.spec.ttlSecondsAfterFinished.Some?
                         && v.clock >= WholeSeconds(Now(j, w).1) + j.spec.ttlSecondsAfterFinished.value * SECOND)
  {
    AwaitWaits(j, w, job.status, c);
    var (w1, now) := Now(j, w);
    var code := Int32(c.exitCode);
    var status := job.status.(containerID := Some(c.id), exitCode := Some(code), completionTime := Some(now));
    var phase := if code == 0 then PhaseSucceeded else PhaseFailed;
    FinishWaits(j, w1, job.(status := status.(phase := phase)), job.status, c);
  }

  /** A pass over a finished job asks to be called back exactly when the container is due, and the
      pass at that time, or at any later one, removes it. */
  lemma RemovedWhenDue(j: Job, w: World, ns: nat)
    requires w.stored.Some? && LiveWith(w, w.stored.value.status) && Terminal(w.stored.value.status)
    requires j.spec.ttlSecondsAfterFinished.Some? && w.stored.value.status.completionTime.Some?
    ensures var (w', result) := Reconcile(j, w.(tape := SmoothTape(CALLS)));
      var w'' := Step(j, w'.(tape := []), Outside(Tick(ns)));
      && (Due(j, w.stored.value.status, w.clock) ==> ContainerName(j) !in w'.engine.containers && result == Finished)
      && (!Due(j, w.stored.value.status, w.clock) ==>
            && w'.engine == w.engine && result.Again?
            && (ns >= result.after ==> ContainerName(j) !in Step(j, w'', SMOOTH_PASS).engine.containers))
  {
    var job := w.stored.value;
    var w0 := w.(tape := SmoothTape(CALLS));
    SmoothReconcile(j, w0, job, CALLS - 2);
    SmoothTTL(j, w0.(tape := w0.tape[2..]), job, CALLS - 4);
    var (w', result) := Reconcile(j, w0);
    if !Due(j, job.status, w.clock) {
      var w'' := Step(j, w'.(tape := []), Outside(Tick(ns))).(tape := SmoothTape(CALLS));
      SmoothReconcile(j, w'', job, CALLS - 2);
      SmoothTTL(j, w''.(tape := w''.tape[2..]), job, CALLS - 4);
    }
  }

  // ---- Containers that were created and not started ----

  ghost predicate Idle(s: State) {
    s == Created || s == Dead
  }

  lemma IdleStep(j: Job, w: World, m: Move, s: Status, c: Container)
    requires LiveWith(w, s) && !Terminal(s) && Holds(j, w, c) && Idle(c.state) && HarmlessMove(j, m)
    ensures var w' := Step(j, w, m); LiveWith(w', s) && Holds(j, w', c) && w'.log.starts == w.log.starts
  {
    match m
    case Outside(event) =>
    case Pass(tape) =>
      var w0 := w.(tape := tape);
      AwaitWaits(j, w0, s, c);
      var w1 := Await(j, w0).0;
      AwaitWaits(j, w1, s, c);
      var w2 := Await(j, w1).0;
      AwaitWaits(j, w2, s, c);
  }

  /** If the start after a successful create fails, no later pass starts or replaces the container:
      the job stays as it is until somebody steps in. */
  lemma {:induction false} NeverStarted(j: Job, w: World, moves: seq<Move>, c: Container)
    requires w.stored.Some? && LiveWith(w, w.stored.value.status) && !Terminal(w.stored.value.status)
    requires Holds(j, w, c) && Idle(c.state)
    requires forall i :: 0 <= i < |moves| ==> HarmlessMove(j, moves[i])
    ensures var w' := Run(j, w, moves);
      && LiveWith(w', w.stored.value.status) && Holds(j, w', c) && w'.log.starts == w.log.starts
    decreases |moves|
  {
    if moves != [] {
      IdleStep(j, w, moves[0], w.stored.value.status, c);
      NeverStarted(j, Step(j, w, moves[0]), moves[1..], c);
    }
  }
}
