/** The calls of a pass of the DockerContainer controller. */
module ContainerPasses {
  import opened Go
  import opened DockerEngine
  import opened ContainerSpecs
  import opened ContainerModel
  import opened ContainerProofs
  import opened EnforcedContainers

  // ---- The calls of a sync ----

  /** The calls that create a container and start it. */
  function Creating(spec: Spec, name: string): seq<Op> {
    [OpCreate(name)] + seq(|spec.secretVolumes|, _ => OpCopy(name)) + [OpStart(name)]
  }

  lemma {:induction false} UploadCalls(w: World, name: string, id: nat, secrets: seq<string>)
    ensures var (v, ok) := UploadAll(w, name, id, secrets);
      ok ==> v.ops == w.ops + seq(|secrets|, _ => OpCopy(name))
    decreases |secrets|
  {
    if secrets != [] {
      UploadCalls(Upload(w, name, id, secrets[0]).0, name, id, secrets[1..]);
      assert [OpCopy(name)] + seq(|secrets[1..]|, _ => OpCopy(name)) == seq(|secrets|, _ => OpCopy(name));
    }
  }

  lemma BringCalls(w: World, key: string, spec: Spec, name: string, id: nat, status: Status)
    ensures var (v, ok) := Bring(w, key, spec, name, id, status);
      ok ==> v.ops == w.ops + (seq(|spec.secretVolumes|, _ => OpCopy(name)) + [OpStart(name)])
  {
    UploadCalls(w, name, id, spec.secretVolumes);
  }

  lemma ProvisionCalls(lib: Lib, w: World, key: string, cr: Stored, name: string)
    ensures var (v, ok) := Provision(lib, w, key, cr, name); ok ==> v.ops == w.ops + Creating(cr.spec, name)
  {
    EnsureImageKeeps(w, cr.spec);
    var (w1, image) := EnsureImage(w, cr.spec);
    var bindings := ParsePorts(cr.spec.ports);
    ResolvedEnv(w1, cr.spec.env, cr.spec.envVars);
    var (w2, env) := ResolveFrom(w1, cr.spec.env, cr.spec.envVars);
    if image && bindings.Some? && env.Some? {
      var (w3, err, id) := CreateContainer(w2, name, RequestedConfig(cr.spec, env.value, bindings.value),
                                           RequestedHost(lib.floats, cr.spec, bindings.value));
      BringCalls(w3, key, cr.spec, name, id, cr.status);
    }
  }

  lemma ReplaceCalls(lib: Lib, w: World, key: string, cr: Stored, name: string, id: nat)
    ensures var (v, ok) := Replace(lib, w, key, cr, name, id);
      ok ==> v.ops == w.ops + ([OpStop(name), OpRemove(name)] + Creating(cr.spec, name))
  {
    var (w1, _) := StopContainer(w, ById(name, id));
    var (w2, _) := RemoveContainer(w1, ById(name, id));
    ProvisionCalls(lib, w2, key, cr, name);
    assert w.ops + [OpStop(name)] + [OpRemove(name)] + Creating(cr.spec, name)
        == w.ops + ([OpStop(name), OpRemove(name)] + Creating(cr.spec, name));
  }

  lemma ReviveCalls(w: World, key: string, cr: Stored, name: string)
    requires name in w.engine.containers
    ensures var c := w.engine.containers[name];
      Revive(w, key, cr, name, c).0.ops == w.ops + (if c.state == Running then [] else [OpStart(name)])
      || !Revive(w, key, cr, name, c).1
  {
  }

  /** A sync that succeeds makes exactly these calls, in this order: none for a container that matches and runs,
      a start for one that matches and does not, and otherwise the old container is stopped and removed before
      the new one is created. */
  lemma SyncCalls(lib: Lib, w: World, key: string, cr: Stored, name: string, order: seq<PortKey>)
    requires ModeFor(cr.spec, cr.owners) == Enforce && Sync(lib, w, key, cr, name, order).1
    ensures Sync(lib, w, key, cr, name, order).0.ops == w.ops +
      if name !in w.engine.containers then Creating(cr.spec, name)
      else
        var c := w.engine.containers[name];
        if MatchesSpec(lib, cr.spec, c) then (if c.state == Running then [] else [OpStart(name)])
        else [OpStop(name), OpRemove(name)] + Creating(cr.spec, name)
  {
    var (w1, listed) := Read(w);
    if name !in w1.engine.containers {
      ProvisionCalls(lib, w1, key, cr, name);
    } else {
      var c := w1.engine.containers[name];
      OutdatedExactly(lib, cr.spec, c);
      var (w2, _, err) := InspectContainer(w1, ById(name, c.id));
      if Outdated(lib, c, cr.spec) {
        ReplaceCalls(lib, w2, key, cr, name, c.id);
      } else {
        ReviveCalls(w2, key, cr, name);
      }
    }
  }

  /** The pull secret, if there is one, was found, and the image was there or could be pulled. */
  predicate ImageReady(w: World, spec: Spec) {
    var i := if spec.imagePullSecret == "" then 0 else 1;
    (i == 1 ==> OutcomeAt(w, 0) == Done) && (OutcomeAt(w, i) == Done || OutcomeAt(w, i + 1) == Done)
  }

  /** Nothing is created without the image. */
  lemma ImageComesFirst(lib: Lib, w: World, key: string, cr: Stored, name: string)
    ensures var v := Provision(lib, w, key, cr, name).0;
      v.ops != w.ops || v.engine != w.engine || v.objects != w.objects ==> ImageReady(w, cr.spec)
  {
    EnsureImageKeeps(w, cr.spec);
    var (w1, image) := EnsureImage(w, cr.spec);
    assert image <==> ImageReady(w, cr.spec);
  }

  // ---- Whole passes ----

  /** Before its finalizer is stored nothing happens to a resource but that. */
  lemma FinalizerComesFirst(lib: Lib, w: World, key: string, order: seq<PortKey>)
    requires key in w.objects && !w.objects[key].deleting && FINALIZER !in w.objects[key].finalizers
    ensures var (v, ok) := Reconcile(lib, w, key, order);
      && v.engine == w.engine && v.ops == w.ops
      && (v.objects == w.objects ||
          v.objects == w.objects[key := w.objects[key].(finalizers := w.objects[key].finalizers + {FINALIZER})])
      && (ok ==> FINALIZER in v.objects[key].finalizers)
      && (OutcomeAt(w, 0) == Done && OutcomeAt(w, 1) == Done ==> ok)
  {
  }

  /** Nothing is left to do for a resource that does not exist. */
  lemma MissingIsDone(lib: Lib, w: World, key: string, order: seq<PortKey>)
    requires key !in w.objects
    ensures var (v, ok) := Reconcile(lib, w, key, order);
      v == w.(tape := v.tape) && (ok <==> OutcomeAt(w, 0) == Done)
  {
  }

  /** Without a Docker client a pass over a live resource fails and does nothing. */
  lemma NoClientNothingDone(lib: Lib, w: World, key: string, order: seq<PortKey>)
    requires key in w.objects && !w.objects[key].deleting && FINALIZER in w.objects[key].finalizers
    requires OutcomeAt(w, 0) != Done || OutcomeAt(w, 1) != Done
    ensures var (v, ok) := Reconcile(lib, w, key, order); v == w.(tape := v.tape) && !ok
  {
  }

  /** A pass that succeeds over an enforced resource leaves a matching container under the container name, or
      under the name of the resource if it has none. */
  lemma PassLeavesMatching(lib: Lib, w: World, key: string, order: seq<PortKey>)
    requires key in w.objects && !w.objects[key].deleting && FINALIZER in w.objects[key].finalizers
    requires ModeFor(w.objects[key].spec, w.objects[key].owners) == Enforce && Reconcile(lib, w, key, order).1
    ensures var v, spec := Reconcile(lib, w, key, order).0, w.objects[key].spec;
      var name := if spec.containerName == "" then key else spec.containerName;
      && name in v.engine.containers && MatchesSpec(lib, spec, v.engine.containers[name])
      && Reported(w, v, key, w.objects[key], name)
  {
    var cr := w.objects[key];
    var (w1, _) := Read(w);
    var (w2, _) := Read(w1);
    SyncLeavesMatching(lib, w2, key, cr, RuntimeName(key, cr), order);
    SyncReports(lib, w2, key, cr, RuntimeName(key, cr), order);
  }

  /** An observe pass that succeeds reports what it saw. */
  lemma ObserveReports(lib: Lib, w: World, key: string, cr: Stored, name: string, order: seq<PortKey>)
    requires ModeFor(cr.spec, cr.owners) == Observe && Sync(lib, w, key, cr, name, order).1
    ensures var v := Sync(lib, w, key, cr, name, order).0;
      && key in v.objects
      && var s := v.objects[key].status;
         s.adopted
         && (if name in w.engine.containers then
               && s.id == Some(w.engine.containers[name].id)
               && s.state == Runtime(w.engine.containers[name].state)
             else s.id == None && s.state == Missing && s.specHash == "")
  {
  }

  /** If the container cannot be removed, its tunnels stay as well. */
  lemma TunnelsWaitForContainer(lib: Lib, w: World, key: string, order: seq<PortKey>)
    requires key in w.objects && w.objects[key].deleting && FINALIZER in w.objects[key].finalizers
    requires OutcomeAt(w, 2) == Refused
    ensures Reconcile(lib, w, key, order).0.engine == w.engine
    ensures var name := RuntimeName(key, w.objects[key]);
      Reconcile(lib, w, key, order).0.ops in {w.ops, w.ops + [OpRemove(name)]}
  {
    var (w1, got) := Read(w);
    if got {
      var (w2, client) := Read(w1);
      assert OutcomeAt(w2, 0) == OutcomeAt(w, 2);
    }
  }
}
