/** The active deadline of a DockerJob. */
module JobDeadline {
  import opened Go
  import opened DockerEngine
  import opened JobModel
  import opened JobDrift
  import opened JobProgress
  import opened JobSafety

  ghost predicate Overdue(j: Job, s: Status, clock: int) {
    && j.spec.activeDeadlineSeconds.Some?
    && s.startTime.Some?
    && clock > s.startTime.value + DeadlineDuration(j.spec.activeDeadlineSeconds.value)
  }

  lemma OverdueFails(j: Job, w: World, job: Stored, c: Container)
    requires Syncing(j, w, job) && Overdue(j, job.status, w.clock)
    ensures var w' := OnRunning(j, w, job, c).0;
      && w'.log.starts == w.log.starts && w'.stored.Some?
      && (w'.log.lostWrites == w.log.lostWrites ==>
            w'.stored.value.status.phase == PhaseFailed && w'.stored.value.status.exitCode == None)
  {
    AwaitKeeps(j, w);
    AwaitDrifts(j, w);
    OnDeadlineKeeps(j, Now(j, w).0, job, c);
  }

  /** The pass gets as far as its inspect, and that finds the container running past the deadline. What
      happens to the container before and after the inspect is left open. */
  ghost predicate FindsOverdue(j: Job, w: World) {
    var (w1, err, got) := Get(j, w);
    && err == Ok && !got.value.deleting && FINALIZER in got.value.finalizers && !Terminal(got.value.status)
    && var (w2, client) := Await(j, w1);
      && client.outcome == Done
      && var (w3, inspected, c, bare) := ContainerInspect(j, w2);
        && inspected == Ok && !bare && RunningFlag(c.value.state)
        && Overdue(j, got.value.status, w3.clock)
  }

  /** Every pass that finds the container running past the deadline makes the job Failed, on any tape: for
      whatever happens around its calls and to the stop and the removal, unless its status write is lost. */
  lemma DeadlineIsEnforced(j: Job, w: World)
    requires Inv(j, w)
    ensures var w' := Reconcile(j, w).0;
      FindsOverdue(j, w) ==>
        && w'.log.starts == w.log.starts && w'.stored.Some?
        && (w'.log.lostWrites == w.log.lostWrites ==> w'.stored.value.status.phase == PhaseFailed)
  {
    if FindsOverdue(j, w) {
      AwaitKeeps(j, w);
      AwaitDrifts(j, w);
      var (w1, _, got) := Get(j, w);
      AwaitKeeps(j, w1);
      var (w2, _) := Await(j, w1);
      AwaitKeeps(j, w2);
      var (w3, _, c, _) := ContainerInspect(j, w2);
      OverdueFails(j, w3, got.value, c.value);
    }
  }

  // ---- What becomes of the container ----

  /** IDs are given out in ascending order. */
  ghost predicate Numbered(w: World) {
    forall n :: n in w.engine.containers ==> w.engine.containers[n].id < w.engine.nextId
  }

  /** No event from the i-th call on sets the running flag of the job's container. */
  ghost predicate NoResume(j: Job, events: seq<Event>) {
    forall e :: e in events && e.StateChange? && e.name == ContainerName(j) ==> !RunningFlag(e.state)
  }

  ghost predicate NoneResumes(j: Job, tape: seq<Choice>) {
    forall i :: 0 <= i < |tape| ==> NoResume(j, tape[i].before)
  }

  /** No event creates a container under the job's name. */
  ghost predicate NoCreation(j: Job, events: seq<Event>) {
    forall e :: e in events && e.OutsideCreate? ==> e.name != ContainerName(j)
  }

  ghost predicate NoneCreates(j: Job, tape: seq<Choice>) {
    forall i :: 0 <= i < |tape| ==> NoCreation(j, tape[i].before)
  }

  /** The container of that ID is not under the job's name. */
  ghost predicate Gone(j: Job, w: World, id: nat) {
    ContainerName(j) in w.engine.containers ==> w.engine.containers[ContainerName(j)].id != id
  }

  ghost predicate Halted(j: Job, w: World, id: nat) {
    Gone(j, w, id) || !RunningFlag(w.engine.containers[ContainerName(j)].state)
  }

  /** No other container has taken the name. */
  ghost predicate Sole(j: Job, w: World, id: nat) {
    ContainerName(j) in w.engine.containers ==> w.engine.containers[ContainerName(j)].id == id
  }

  /** What is known of the container of that ID. */
  datatype Fate = Fate(gone: bool, halted: bool, sole: bool)

  ghost predicate Meets(j: Job, w: World, id: nat, fate: Fate) {
    && id < w.engine.nextId
    && (fate.gone ==> Gone(j, w, id))
    && (fate.halted ==> Halted(j, w, id))
    && (fate.sole ==> Sole(j, w, id))
  }

  lemma {:induction false} EventsKeepFate(j: Job, w: World, events: seq<Event>, id: nat, fate: Fate)
    requires Meets(j, w, id, fate)
    requires (fate.halted ==> NoResume(j, events)) && (fate.sole ==> NoCreation(j, events))
    ensures Meets(j, ApplyAll(j, w, events), id, fate)
    decreases |events|
  {
    if events != [] {
      assert events[0] in events && forall e :: e in events[1..] ==> e in events;
      EventsKeepFate(j, Apply(j, w, events[0]), events[1..], id, fate);
    }
  }

  lemma AwaitKeepsFate(j: Job, w: World, id: nat, fate: Fate)
    requires Meets(j, w, id, fate)
    requires (fate.halted ==> NoneResumes(j, w.tape)) && (fate.sole ==> NoneCreates(j, w.tape))
    ensures var v := Await(j, w).0;
      && Meets(j, v, id, fate)
      && (fate.halted ==> NoneResumes(j, v.tape)) && (fate.sole ==> NoneCreates(j, v.tape))
  {
    AwaitTape(j, w);
    if w.tape != [] {
      EventsKeepFate(j, w.(tape := w.tape[1..]), w.tape[0].before, id, fate);
    }
  }

  /** Removing the name never brings the container back. */
  lemma FinishKeepsFate(j: Job, w: World, done: Stored, id: nat, fate: Fate)
    requires Meets(j, w, id, fate)
    requires (fate.halted ==> NoneResumes(j, w.tape)) && (fate.sole ==> NoneCreates(j, w.tape))
    ensures Meets(j, Finish(j, w, done).0, id, fate)
  {
    AwaitKeepsFate(j, w, id, fate);
    var (w1, _, local) := StatusUpdate(j, w, done, false);
    AwaitKeepsFate(j, w1, id, fate);
    AwaitKeepsFate(j, Await(j, w1).0, id, fate);
  }

  lemma StopHalts(j: Job, w: World, id: nat, sole: bool)
    requires Meets(j, w, id, Fate(false, false, sole)) && (sole ==> NoneCreates(j, w.tape))
    ensures var v := ContainerStop(j, w, ById(ContainerName(j), id)).0;
      && v.tape == (if w.tape == [] then [] else w.tape[1..])
      && Meets(j, v, id, Fate(false, OutcomeAt(w, 0) != Refused, sole))
  {
    AwaitTape(j, w);
    AwaitKeepsFate(j, w, id, Fate(false, false, sole));
  }

  lemma RemoveTakes(j: Job, w: World, id: nat, halted: bool, sole: bool)
    requires Meets(j, w, id, Fate(false, halted, sole))
    requires (halted ==> NoneResumes(j, w.tape)) && (sole ==> NoneCreates(j, w.tape))
    ensures var v := ContainerRemove(j, w, ById(ContainerName(j), id)).0;
      && v.tape == (if w.tape == [] then [] else w.tape[1..])
      && Meets(j, v, id, Fate(OutcomeAt(w, 0) != Refused, halted, sole))
  {
    AwaitTape(j, w);
    AwaitKeepsFate(j, w, id, Fate(false, halted, sole));
  }

  function Rest(tape: seq<Choice>, n: nat): seq<Choice> {
    if n <= |tape| then tape[n..] else []
  }

  lemma OverdueFate(j: Job, w: World, job: Stored, c: Container, halted: bool, sole: bool)
    requires Meets(j, w, c.id, Fate(false, false, sole)) && (sole ==> NoneCreates(j, w.tape))
    requires halted ==> OutcomeAt(w, 0) != Refused && NoneResumes(j, Rest(w.tape, 1))
    ensures Meets(j, OnDeadline(j, w, job, c).0, c.id, Fate(OutcomeAt(w, 1) != Refused, halted, sole))
  {
    StopHalts(j, w, c.id, sole);
    var (w1, _) := ContainerStop(j, w, ById(ContainerName(j), c.id));
    RemoveTakes(j, w1, c.id, halted, sole);
    var (w2, _) := ContainerRemove(j, w1, ById(ContainerName(j), c.id));
    var fate := Fate(OutcomeAt(w, 1) != Refused, halted, sole);
    AwaitKeepsFate(j, w2, c.id, fate);
    var (w3, now) := Now(j, w2);
    FinishKeepsFate(j, w3, job.(status := job.status.(phase := PhaseFailed, containerID := Some(c.id),
                                                       completionTime := Some(now))), c.id, fate);
  }

  lemma {:induction false} NumberedEvents(j: Job, w: World, events: seq<Event>)
    requires Numbered(w)
    ensures Numbered(ApplyAll(j, w, events))
    decreases |events|
  {
    if events != [] {
      NumberedEvents(j, Apply(j, w, events[0]), events[1..]);
    }
  }

  lemma NumberedAwait(j: Job, w: World)
    requires Numbered(w)
    ensures Numbered(Await(j, w).0)
  {
    if w.tape != [] {
      NumberedEvents(j, w.(tape := w.tape[1..]), w.tape[0].before);
    }
  }

  /** The container that the inspect of such a pass shows. */
  function Inspected(j: Job, w: World): Container
    requires FindsOverdue(j, w)
  {
    ContainerInspect(j, Await(j, Await(j, w).0).0).2.value
  }

  lemma ReachesDeadline(j: Job, w: World) returns (v: World, job: Stored)
    requires FindsOverdue(j, w) && Numbered(w)
    ensures v.tape == Rest(w.tape, 4) && |w.tape| >= 3
    ensures Reconcile(j, w) == OnDeadline(j, v, job, Inspected(j, w))
    ensures Meets(j, v, Inspected(j, w).id, Fate(false, false, NoneCreates(j, Rest(w.tape, 3))))
  {
    AwaitTape(j, w);
    NumberedAwait(j, w);
    var (w1, _, got) := Get(j, w);
    AwaitTape(j, w1);
    NumberedAwait(j, w1);
    var (w2, _) := Await(j, w1);
    AwaitTape(j, w2);
    NumberedAwait(j, w2);
    var (w3, _, c, _) := ContainerInspect(j, w2);
    var sole := NoneCreates(j, Rest(w.tape, 3));
    assert w3.tape == Rest(w.tape, 3);
    AwaitKeepsFate(j, w3, c.value.id, Fate(false, false, sole));
    AwaitTape(j, w3);
    AwaitDrifts(j, w3);
    v, job := Now(j, w3).0, got.value;
  }

  /** On any tape, the container that was found overdue is still there after the pass only if its removal was
      refused, and runs only if its stop was refused too or an event after that set its running flag. If the
      removal was not refused and nobody else created one, there is no container under the name. */
  lemma OverdueContainerGoes(j: Job, w: World)
    requires FindsOverdue(j, w) && Numbered(w)
    ensures var engine, name := Reconcile(j, w).0.engine, ContainerName(j);
      && (name in engine.containers && engine.containers[name].id == Inspected(j, w).id ==>
            && OutcomeAt(w, 5) == Refused
            && (RunningFlag(engine.containers[name].state) ==>
                  OutcomeAt(w, 4) == Refused || !NoneResumes(j, Rest(w.tape, 5))))
      && (OutcomeAt(w, 5) != Refused && NoneCreates(j, Rest(w.tape, 3)) ==> name !in engine.containers)
  {
    var v, job := ReachesDeadline(j, w);
    assert OutcomeAt(v, 0) == OutcomeAt(w, 4) && OutcomeAt(v, 1) == OutcomeAt(w, 5);
    var halted := OutcomeAt(w, 4) != Refused && NoneResumes(j, Rest(w.tape, 5));
    assert |w.tape| > 4 ==> Rest(v.tape, 1) == Rest(w.tape, 5);
    OverdueFate(j, v, job, Inspected(j, w), halted, NoneCreates(j, Rest(w.tape, 3)));
  }

  lemma SmoothDeadline(j: Job, w: World, job: Stored, c: Container, n: nat)
    requires Smooth(w, n + 6) && w.stored.Some? && w.stored.value.version == job.version
    ensures var v := OnDeadline(j, w, job, c).0;
      v.stored.Some? && v.stored.value.status.phase == PhaseFailed && v.log.starts == w.log.starts
  {
    AwaitSmooth(j, w, n + 6);
    var (w1, _) := ContainerStop(j, w, ById(ContainerName(j), c.id));
    AwaitSmooth(j, w1, n + 5);
    var (w2, _) := ContainerRemove(j, w1, ById(ContainerName(j), c.id));
    AwaitSmooth(j, w2, n + 4);
    var (w3, now) := Now(j, w2);
    SmoothFinish(j, w3, job.(status := job.status.(phase := PhaseFailed, containerID := Some(c.id),
                                                    completionTime := Some(now))), n);
  }

  /** An undisturbed pass that finds the container overdue stores Failed and leaves no container under the
      name of the job. */
  lemma OverdueIsRemoved(j: Job, w: World)
    requires FindsOverdue(j, w) && Numbered(w) && Smooth(w, CALLS)
    ensures var w' := Reconcile(j, w).0;
      && ContainerName(j) !in w'.engine.containers
      && w'.stored.Some? && w'.stored.value.status.phase == PhaseFailed && w'.log.starts == w.log.starts
  {
    OverdueContainerGoes(j, w);
    AwaitSmooth(j, w, CALLS);
    var w1 := w.(tape := w.tape[1..]);
    AwaitSmooth(j, w1, CALLS - 1);
    var w2 := w1.(tape := w1.tape[1..]);
    AwaitSmooth(j, w2, CALLS - 2);
    var w3 := w2.(tape := w2.tape[1..]);
    AwaitSmooth(j, w3, CALLS - 3);
    SmoothDeadline(j, w3.(tape := w3.tape[1..]), w.stored.value, Inspected(j, w), CALLS - 10);
  }

  /** The deadline is the one the spec asks for exactly if the seconds fit a time.Duration. */
  lemma DeadlineIsExact(seconds: int64)
    ensures DeadlineDuration(seconds) == seconds * SECOND <==> -9_223_372_036 <= seconds <= 9_223_372_036
  {
  }

  /** A deadline of 292 years and some months lies in the past: the job is failed on sight. */
  lemma HugeDeadlineIsOver(j: Job, s: Status, clock: int)
    requires j.spec.activeDeadlineSeconds == Some(9_223_372_037) && s.startTime.Some? && clock >= s.startTime.value
    ensures Overdue(j, s, clock)
  {
    assert DeadlineDuration(9_223_372_037) == 9_223_372_037 * SECOND - TWO_64;
  }
}
