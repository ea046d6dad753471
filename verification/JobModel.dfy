/** One reconcile pass of the DockerJob controller as a function of the world it runs in
    (internal/controller/dockerjob_controller.go).

    A pass is a series of calls to the API server and to the Docker engine. What happens around
    each call is read from a tape: the events that land just before the call, and how the call
    itself ends. When the tape runs out every further call is refused, which is exactly a crash
    of the controller at that point. */
module JobModel {
  import opened Go
  import opened DockerEngine

  const FINALIZER := "dockerjob.kdop.kdop.io.vn/finalizer"
  const SECOND: int := 1_000_000_000
  const REQUEUE_INTERVAL: int := 5 * SECOND

  datatype Phase = NoPhase | PhaseRunning | PhaseSucceeded | PhaseFailed

  /** Times are nanoseconds; the message text is not part of this model. */
  datatype Status = Status(
    phase: Phase,
    containerID: Option<nat>,
    startTime: Option<int>,
    completionTime: Option<int>,
    exitCode: Option<int32>,
    attempts: int32)

  /** The DockerJob as the API server stores it; version is its resourceVersion. */
  datatype Stored = Stored(finalizers: set<string>, deleting: bool, version: nat, status: Status)

  datatype JobSpec = JobSpec(
    image: string,
    containerName: string,
    command: seq<string>,
    args: seq<string>,
    restartPolicy: string,
    backoffLimit: int32,
    activeDeadlineSeconds: Option<int64>,
    ttlSecondsAfterFinished: Option<int32>)

  /** The part of a DockerJob that does not change during a run. */
  datatype Job = Job(name: string, spec: JobSpec)

  datatype Event =
    | Tick(ns: nat)
    | UserDelete
    | ForeignFinalizers(names: set<string>)  // another writer sets the finalizers that are not ours
    | StateChange(name: string, state: State, exitCode: int)
    | OutsideRemove(name: string)
    | OutsideCreate(name: string, container: Container)

  /** bare: the inspect reply carries no State. */
  datatype Choice = Choice(before: seq<Event>, outcome: Outcome, bare: bool)

  /** Counters that only the proofs look at.
      starts: ContainerStart calls of the controller that were acknowledged; unseenStarts: those that took
      effect but whose reply was lost; recorded: the acknowledged ones whose status write was stored;
      lostWrites: status writes that were not stored; outsideRemovals: removals of the job's container by
      anybody else. */
  datatype Log = Log(starts: nat, unseenStarts: nat, recorded: nat, lostWrites: nat, outsideRemovals: nat)

  datatype World = World(stored: Option<Stored>, engine: Engine, clock: int, tape: seq<Choice>, log: Log)

  datatype Result = Finished | Again(after: int) | Error

  predicate Terminal(s: Status) {
    s.phase == PhaseSucceeded || s.phase == PhaseFailed
  }

  function ContainerName(j: Job): string {
    if j.spec.containerName != "" then j.spec.containerName else "job-" + j.name
  }

  /** metav1.Time is serialised in whole seconds. */
  function WholeSeconds(t: int): (s: int)
    ensures s <= t < s + SECOND && s % SECOND == 0
  {
    t - t % SECOND
  }

  function PersistTime(t: Option<int>): Option<int> {
    if t.None? then None else Some(WholeSeconds(t.value))
  }

  function Persist(s: Status): Status {
    s.(startTime := PersistTime(s.startTime), completionTime := PersistTime(s.completionTime))
  }

  // ---- The environment between calls ----

  /** An object with a deletion mark disappears with its last finalizer. */
  function Settle(o: Stored): Option<Stored> {
    if o.deleting && o.finalizers == {} then None else Some(o)
  }

  function Apply(j: Job, w: World, e: Event): World {
    match e
    case Tick(ns) => w.(clock := w.clock + ns)
    case UserDelete =>
      if w.stored.None? || w.stored.value.deleting then w
      else w.(stored := Settle(w.stored.value.(deleting := true, version := w.stored.value.version + 1)))
    case ForeignFinalizers(names) =>
      if w.stored.None? then w
      else
        var o := w.stored.value;
        // no finalizer may be added to an object that is being deleted
        var others := if o.deleting then (names * o.finalizers) - {FINALIZER} else names - {FINALIZER};
        w.(stored := Settle(o.(finalizers := (o.finalizers * {FINALIZER}) + others, version := o.version + 1)))
    case StateChange(name, state, exitCode) =>
      if name !in w.engine.containers then w
      else
        var c := w.engine.containers[name].(state := state, exitCode := exitCode);
        w.(engine := w.engine.(containers := w.engine.containers[name := c]))
    case OutsideRemove(name) =>
      if name !in w.engine.containers then w
      else
        w.(engine := w.engine.(containers := w.engine.containers - {name}),
           log := if name == ContainerName(j) then w.log.(outsideRemovals := w.log.outsideRemovals + 1) else w.log)
    case OutsideCreate(name, container) =>
      if name in w.engine.containers then w
      else
        var c := container.(id := w.engine.nextId, origin := ByOutsider);
        w.(engine := w.engine.(containers := w.engine.containers[name := c], nextId := w.engine.nextId + 1))
  }

  function ApplyAll(j: Job, w: World, events: seq<Event>): World
    decreases |events|
  {
    if events == [] then w else ApplyAll(j, Apply(j, w, events[0]), events[1..])
  }

  const CRASH := Choice([], Refused, false)

  /** Lets the environment move up to the next call, and says how that call will end. */
  function Await(j: Job, w: World): (World, Choice) {
    if w.tape == [] then (w, CRASH)
    else (ApplyAll(j, w.(tape := w.tape[1..]), w.tape[0].before), w.tape[0])
  }

  function Now(j: Job, w: World): (World, int) {
    var (w1, _) := Await(j, w);
    (w1, w1.clock)
  }

  // ---- Calls ----

  function Get(j: Job, w: World): (World, Err, Option<Stored>) {
    var (w1, call) := Await(j, w);
    if call.outcome != Done then (w1, Failure, None)
    else if w1.stored.None? then (w1, NotFound, None)
    else (w1, Ok, w1.stored)
  }

  /** An update is accepted only for the version it was read at. */
  predicate Accepts(w: World, version: nat, o: Outcome) {
    o != Refused && w.stored.Some? && w.stored.value.version == version
  }

  function Update(j: Job, w: World, local: Stored): (World, Err, Stored) {
    var (w1, call) := Await(j, w);
    if !Accepts(w1, local.version, call.outcome) then (w1, Failure, local)
    else
      var next := w1.stored.value.(finalizers := local.finalizers, version := local.version + 1);
      (w1.(stored := Settle(next)), Seen(call.outcome, Ok), if call.outcome == Done then next else local)
  }

  function StatusUpdate(j: Job, w: World, local: Stored, started: bool): (World, Err, Stored) {
    var (w1, call) := Await(j, w);
    if !Accepts(w1, local.version, call.outcome) then
      (w1.(log := w1.log.(lostWrites := w1.log.lostWrites + 1)), Failure, local)
    else
      var next := w1.stored.value.(status := Persist(local.status), version := local.version + 1);
      var log := if started then w1.log.(recorded := w1.log.recorded + 1) else w1.log;
      (w1.(stored := Some(next), log := log), Seen(call.outcome, Ok), if call.outcome == Done then next else local)
  }

  function ContainerInspect(j: Job, w: World): (World, Err, Option<Container>, bool) {
    var (w1, call) := Await(j, w);
    var (c, err) := DockerEngine.Inspect(w1.engine, ByName(ContainerName(j)), call.outcome);
    (w1, err, c, call.bare)
  }

  function ContainerStop(j: Job, w: World, ref: Ref): (World, Err) {
    var (w1, call) := Await(j, w);
    var (engine, err) := DockerEngine.Stop(w1.engine, ref, call.outcome);
    (w1.(engine := engine), err)
  }

  function ContainerRemove(j: Job, w: World, ref: Ref): (World, Err) {
    var (w1, call) := Await(j, w);
    var (engine, err) := DockerEngine.Remove(w1.engine, ref, call.outcome);
    (w1.(engine := engine), err)
  }

  function JobConfig(j: Job): Config {
    Config(j.spec.image, if |j.spec.args| > 0 then j.spec.command + j.spec.args else j.spec.command, [], {})
  }

  function JobHostConfig(j: Job): HostConfig {
    HostConfig(if j.spec.restartPolicy == "OnFailure" then "on-failure" else "no", 0, 0, "", map[], [])
  }

  /** The ID is meaningful only when the call succeeded. */
  function ContainerCreate(j: Job, w: World): (World, Err, nat) {
    var (w1, call) := Await(j, w);
    var (engine, err) :=
      DockerEngine.Create(w1.engine, ContainerName(j), JobConfig(j), JobHostConfig(j), ByOperator, call.outcome);
    (w1.(engine := engine), err, w1.engine.nextId)
  }

  function ContainerStart(j: Job, w: World, id: nat): (World, Err) {
    var (w1, call) := Await(j, w);
    var (engine, err) := DockerEngine.Start(w1.engine, ById(ContainerName(j), id), call.outcome);
    var unseen := call.outcome == ReplyLost && DockerEngine.Start(w1.engine, ById(ContainerName(j), id), Done).1 == Ok;
    var log := if err == Ok then w1.log.(starts := w1.log.starts + 1)
               else if unseen then
                 w1.log.(unseenStarts := w1.log.unseenStarts + 1)
               else w1.log;
    (w1.(engine := engine, log := log), err)
  }

  // ---- The controller ----

  function CreateAndStart(j: Job, w: World): (World, Err, nat) {
    var (w1, pull) := Await(j, w);
    if pull.outcome != Done then (w1, Failure, 0)
    else
      var (w2, err, id) := ContainerCreate(j, w1);
      if err != Ok then (w2, Failure, 0)
      else
        var (w3, started) := ContainerStart(j, w2, id);
        if started != Ok then (w3, Failure, 0) else (w3, Ok, id)
  }

  function TTLCleanup(j: Job, w: World, job: Stored): (World, Result) {
    if j.spec.ttlSecondsAfterFinished.None? || job.status.completionTime.None? then (w, Finished)
    else
      var ttl := j.spec.ttlSecondsAfterFinished.value * SECOND;
      var (w1, now) := Now(j, w);
      var elapsed := now - job.status.completionTime.value;
      if elapsed < ttl then (w1, Again(ttl - elapsed))
      else
        var (w2, err) := ContainerRemove(j, w1, ByName(ContainerName(j)));
        (w2, if err == Failure then Error else Finished)
  }

  function ReportStart(j: Job, w: World, job: Stored, id: nat): (World, Result) {
    var (w1, now) := Now(j, w);
    var status := job.status.(phase := PhaseRunning, startTime := Some(now),
                              attempts := Int32(job.status.attempts + 1), containerID := Some(id));
    var (w2, _, _) := StatusUpdate(j, w1, job.(status := status), true);
    (w2, Again(REQUEUE_INTERVAL))
  }

  function OnNotFound(j: Job, w: World, job: Stored): (World, Result) {
    var (w1, err, id) := CreateAndStart(j, w);
    if err != Ok then (w1, Error) else ReportStart(j, w1, job, id)
  }

  /** time.Duration is 64 bits wide, so a large number of seconds wraps around. */
  function DeadlineDuration(seconds: int64): int64 {
    Int64(seconds * SECOND)
  }

  /** Stores a final status, then looks at the TTL with what the server answered. */
  function Finish(j: Job, w: World, job: Stored): (World, Result) {
    var (w1, _, job1) := StatusUpdate(j, w, job, false);
    TTLCleanup(j, w1, job1)
  }

  /** Stop and remove, ignoring how either call ends. */
  function Terminate(j: Job, w: World, id: nat): World {
    var (w1, _) := ContainerStop(j, w, ById(ContainerName(j), id));
    ContainerRemove(j, w1, ById(ContainerName(j), id)).0
  }

  function OnDeadline(j: Job, w: World, job: Stored, c: Container): (World, Result) {
    var (w1, now) := Now(j, Terminate(j, w, c.id));
    var status := job.status.(phase := PhaseFailed, containerID := Some(c.id), completionTime := Some(now));
    Finish(j, w1, job.(status := status))
  }

  function StillRunning(j: Job, w: World, job: Stored, c: Container): (World, Result) {
    var status := job.status.(phase := PhaseRunning, containerID := Some(c.id));
    var (w1, _, _) := StatusUpdate(j, w, job.(status := status), false);
    (w1, Again(REQUEUE_INTERVAL))
  }

  function OnRunning(j: Job, w: World, job: Stored, c: Container): (World, Result) {
    if j.spec.activeDeadlineSeconds.Some? && job.status.startTime.Some? then
      var (w1, now) := Now(j, w);
      if now > job.status.startTime.value + DeadlineDuration(j.spec.activeDeadlineSeconds.value) then
        OnDeadline(j, w1, job, c)
      else
        StillRunning(j, w1, job, c)
    else
      StillRunning(j, w, job, c)
  }

  function ReportRetry(j: Job, w: World, job: Stored, id: nat): (World, Result) {
    var status := job.status.(attempts := Int32(job.status.attempts + 1), phase := PhaseRunning,
                              containerID := Some(id), exitCode := None, completionTime := None);
    var (w1, _, _) := StatusUpdate(j, w, job.(status := status), true);
    (w1, Again(REQUEUE_INTERVAL))
  }

  function Relaunch(j: Job, w: World, job: Stored): (World, Result) {
    var (w1, err, id) := CreateAndStart(j, w);
    if err != Ok then
      var (w2, _, _) := StatusUpdate(j, w1, job.(status := job.status.(phase := PhaseFailed)), false);
      (w2, Error)
    else
      ReportRetry(j, w1, job, id)
  }

  function Retry(j: Job, w: World, job: Stored, c: Container): (World, Result) {
    var (w1, _) := ContainerRemove(j, w, ById(ContainerName(j), c.id));
    Relaunch(j, w1, job)
  }

  function OnExited(j: Job, w: World, job: Stored, c: Container): (World, Result) {
    var code := Int32(c.exitCode);
    var (w1, now) := Now(j, w);
    var status := job.status.(containerID := Some(c.id), exitCode := Some(code), completionTime := Some(now));
    if code == 0 then
      Finish(j, w1, job.(status := status.(phase := PhaseSucceeded)))
    else if job.status.attempts <= j.spec.backoffLimit then
      Retry(j, w1, job.(status := status), c)
    else
      Finish(j, w1, job.(status := status.(phase := PhaseFailed)))
  }

  function SyncJob(j: Job, w: World, job: Stored): (World, Result) {
    var (w1, err, c, bare) := ContainerInspect(j, w);
    if err == Failure then (w1, Error)
    else if err == NotFound then OnNotFound(j, w1, job)
    else if bare then (w1, Again(REQUEUE_INTERVAL))
    else if RunningFlag(c.value.state) then OnRunning(j, w1, job, c.value)
    else if c.value.state == Exited then OnExited(j, w1, job, c.value)
    else (w1, Again(REQUEUE_INTERVAL))
  }

  function Dispatch(j: Job, w: World, job: Stored): (World, Result) {
    if Terminal(job.status) then TTLCleanup(j, w, job) else SyncJob(j, w, job)
  }

  function Finalize(j: Job, w: World, job: Stored): (World, Result) {
    var (w1, err) := ContainerRemove(j, w, ByName(ContainerName(j)));
    if err == Failure then (w1, Error)
    else
      var (w2, err2, _) := Update(j, w1, job.(finalizers := job.finalizers - {FINALIZER}));
      (w2, if err2 != Ok then Error else Finished)
  }

  function Reconcile(j: Job, w: World): (World, Result) {
    var (w1, err, got) := Get(j, w);
    if err == NotFound then (w1, Finished)
    else if err == Failure then (w1, Error)
    else
      var job := got.value;
      var (w2, client) := Await(j, w1);  // building the Docker client reads the DockerHost
      if client.outcome != Done then (w2, Error)
      else if job.deleting then
        if FINALIZER in job.finalizers then Finalize(j, w2, job) else (w2, Finished)
      else if FINALIZER in job.finalizers then Dispatch(j, w2, job)
      else
        var (w3, err3, job3) := Update(j, w2, job.(finalizers := job.finalizers + {FINALIZER}));
        if err3 != Ok then (w3, Error) else Dispatch(j, w3, job3)
  }

  // ---- Runs ----

  /** A run is any mixture of passes, each with its own tape, and events between them. */
  datatype Move = Pass(tape: seq<Choice>) | Outside(event: Event)

  function Step(j: Job, w: World, m: Move): World {
    match m
    case Pass(tape) => Reconcile(j, w.(tape := tape)).0.(tape := [])
    case Outside(event) => Apply(j, w, event)
  }

  function Run(j: Job, w: World, moves: seq<Move>): World
    decreases |moves|
  {
    if moves == [] then w else Run(j, Step(j, w, moves[0]), moves[1..])
  }

  const EMPTY_STATUS := Status(NoPhase, None, None, None, None, 0)

  /** A DockerJob just created by a user, on any Docker host that holds none of the operator's containers. */
  ghost predicate Initial(w: World) {
    && w.stored.Some? && FINALIZER !in w.stored.value.finalizers && !w.stored.value.deleting
    && w.stored.value.status == EMPTY_STATUS
    && (forall n :: n in w.engine.containers ==> w.engine.containers[n].origin == ByOutsider)
    && w.log == Log(0, 0, 0, 0, 0)
  }
}
