/** What the environment can and cannot do to a job's world between two calls of the controller. */
module JobDrift {
  import opened DockerEngine
  import opened JobModel

  ghost predicate Ours(w: World, name: string) {
    name in w.engine.containers && w.engine.containers[name].origin == ByOperator
  }

  /** The object survives as long as it carries our finalizer. */
  ghost predicate Held(w: World) {
    w.stored.Some? && FINALIZER in w.stored.value.finalizers
  }

  /** Nobody but the controller writes the status, touches our finalizer, or creates an operator's container. */
  ghost predicate Drift(j: Job, w: World, w': World) {
    && (w'.stored.Some? ==>
          && w.stored.Some?
          && w'.stored.value.status == w.stored.value.status
          && (FINALIZER in w'.stored.value.finalizers <==> FINALIZER in w.stored.value.finalizers)
          && (w.stored.value.deleting ==> w'.stored.value.deleting)
          && w.stored.value.version <= w'.stored.value.version
          && (w.stored.value.version == w'.stored.value.version ==> w'.stored == w.stored))
    && (Held(w) ==> Held(w'))
    && (forall n :: Ours(w', n) ==> Ours(w, n) && SameMake(w'.engine.containers[n], w.engine.containers[n]))
    && w'.engine.images == w.engine.images
    && w'.log.starts == w.log.starts
    && w'.log.unseenStarts == w.log.unseenStarts
    && w'.log.recorded == w.log.recorded
    && w'.log.lostWrites == w.log.lostWrites
    && w.log.outsideRemovals <= w'.log.outsideRemovals
    && (ContainerName(j) in w.engine.containers && ContainerName(j) !in w'.engine.containers ==>
          w.log.outsideRemovals < w'.log.outsideRemovals)
    && w.clock <= w'.clock
  }

  lemma EventDrifts(j: Job, w: World, e: Event)
    ensures Drift(j, w, Apply(j, w, e))
  {
  }

  lemma {:induction false} EventsDrift(j: Job, w: World, events: seq<Event>)
    ensures Drift(j, w, ApplyAll(j, w, events))
    decreases |events|
  {
    if events != [] {
      EventDrifts(j, w, events[0]);
      EventsDrift(j, Apply(j, w, events[0]), events[1..]);
    }
  }

  /** Between two calls the world only drifts. */
  lemma AwaitDrifts(j: Job, w: World)
    ensures Drift(j, w, Await(j, w).0)
  {
    if w.tape != [] {
      EventsDrift(j, w.(tape := w.tape[1..]), w.tape[0].before);
    }
  }

  // ---- The calls of a pass ----

  /** How the i-th call from here ends. */
  function OutcomeAt(w: World, i: nat): Outcome {
    if i < |w.tape| then w.tape[i].outcome else Refused
  }

  lemma {:induction false} TapeAfterEvents(j: Job, w: World, events: seq<Event>)
    ensures ApplyAll(j, w, events).tape == w.tape
    decreases |events|
  {
    if events != [] {
      TapeAfterEvents(j, Apply(j, w, events[0]), events[1..]);
    }
  }

  lemma AwaitTape(j: Job, w: World)
    ensures Await(j, w).0.tape == if w.tape == [] then [] else w.tape[1..]
  {
    if w.tape != [] {
      TapeAfterEvents(j, w.(tape := w.tape[1..]), w.tape[0].before);
    }
  }
}
