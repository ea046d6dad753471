/** Properties of every run of the DockerJob controller. */
module JobRuns {
  import opened Go
  import opened JobModel
  import opened JobDrift
  import opened JobSafety

  // ---- Safety ----

  lemma StepKeeps(j: Job, w: World, m: Move)
    requires Inv(j, w)
    ensures var w' := Step(j, w, m); Inv(j, w') && Onward(w, w')
  {
    match m
    case Pass(tape) =>
      ReconcileKeeps(j, w.(tape := tape));
    case Outside(event) =>
      EventDrifts(j, w, event);
  }

  lemma {:induction false} RunKeeps(j: Job, w: World, moves: seq<Move>)
    requires Inv(j, w)
    ensures var w' := Run(j, w, moves); Inv(j, w') && Onward(w, w')
    decreases |moves|
  {
    if moves != [] {
      StepKeeps(j, w, moves[0]);
      RunKeeps(j, Step(j, w, moves[0]), moves[1..]);
    }
  }

  lemma InitialHolds(j: Job, w: World)
    requires Initial(w)
    ensures Inv(j, w)
  {
  }

  /** Every container start that took effect, whether or not the controller heard of it. */
  function StartsThatTook(w: World): nat {
    w.log.starts + w.log.unseenStarts
  }

  /** In every run the containers that were started are as many as the backoff limit allows, and one more at
      most for every removal by outsiders, every lost status write and every start whose reply was lost.
      As long as none of the last two happened, Attempts is the number of containers started; in any case,
      if no write was lost, it is the number of acknowledged starts.
      The cap must stay below 2^31: Attempts is an int32 (see UnlimitedRetries). */
  lemma AttemptsCountStarts(j: Job, w: World, moves: seq<Move>)
    requires Initial(w)
    ensures var w' := Run(j, w, moves);
      var cap := Max(j.spec.backoffLimit, 0) + 1 + w'.log.outsideRemovals + w'.log.lostWrites;
      cap < TWO_31 ==>
        && StartsThatTook(w') <= cap + w'.log.unseenStarts
        && (w'.log.lostWrites == 0 && w'.stored.Some? ==> w'.stored.value.status.attempts == w'.log.starts)
        && (w'.log.lostWrites == 0 && w'.log.unseenStarts == 0 && w'.stored.Some? ==>
              w'.stored.value.status.attempts == StartsThatTook(w'))
  {
    InitialHolds(j, w);
    RunKeeps(j, w, moves);
  }

  /** In every run a container of the operator's is the job's own, runs what the spec says, and is
      covered by a DockerJob that still carries the finalizer. So none outlives the object. */
  lemma NoOrphans(j: Job, w: World, moves: seq<Move>, name: string)
    requires Initial(w)
    ensures var w' := Run(j, w, moves);
      Ours(w', name) ==>
        && name == (if j.spec.containerName != "" then j.spec.containerName else "job-" + j.name)
        && w'.stored.Some? && FINALIZER in w'.stored.value.finalizers
        && w'.engine.containers[name].config.image == j.spec.image
        && (j.spec.command + j.spec.args != [] ==>
              w'.engine.containers[name].config.cmd == j.spec.command + j.spec.args)
        && (w'.engine.containers[name].host.restartPolicy == "on-failure" <==> j.spec.restartPolicy == "OnFailure")
        && w'.engine.containers[name].host.restartPolicy in {"on-failure", "no"}
  {
    InitialHolds(j, w);
    RunKeeps(j, w, moves);
    assert j.spec.args == [] ==> j.spec.command + j.spec.args == j.spec.command;
  }

  /** The stored status has one of four shapes in every run, even when status writes are lost. */
  lemma StatusShape(j: Job, w: World, moves: seq<Move>)
    requires Initial(w)
    ensures var w' := Run(j, w, moves);
      w'.stored.Some? ==>
        var s := w'.stored.value.status;
        match s.phase
        case NoPhase => s == EMPTY_STATUS
        case PhaseRunning => s.exitCode == None && s.completionTime == None
        case PhaseSucceeded => s.exitCode == Some(0) && s.completionTime.Some?
        case PhaseFailed => s.exitCode != Some(0) && s.completionTime.Some?
  {
    InitialHolds(j, w);
    RunKeeps(j, w, moves);
  }

  /** Once Succeeded or Failed is stored, the status is final and no container is started any more. */
  lemma FinishedIsFinal(j: Job, w: World, before: seq<Move>, after: seq<Move>)
    requires Initial(w)
    ensures var w1 := Run(j, w, before);
      var w2 := Run(j, w1, after);
      w1.stored.Some? && Terminal(w1.stored.value.status) ==>
        && (w2.stored.Some? ==> w2.stored.value.status == w1.stored.value.status)
        && StartsThatTook(w2) == StartsThatTook(w1)
  {
    InitialHolds(j, w);
    RunKeeps(j, w, before);
    RunKeeps(j, Run(j, w, before), after);
  }

  /** Retries never move StartTime, unless an outsider removed the container or a write was lost. */
  lemma StartTimeNeverMoves(j: Job, w: World, before: seq<Move>, after: seq<Move>)
    requires Initial(w)
    ensures var w1 := Run(j, w, before);
      var w2 := Run(j, w1, after);
      && w2.log.outsideRemovals == 0 && w2.log.lostWrites == 0
      && w1.stored.Some? && w2.stored.Some? && w1.stored.value.status.startTime.Some? ==>
        w2.stored.value.status.startTime == w1.stored.value.status.startTime
  {
    InitialHolds(j, w);
    RunKeeps(j, w, before);
    RunKeeps(j, Run(j, w, before), after);
  }
}
