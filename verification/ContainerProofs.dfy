/** What the DockerContainer controller makes of a Docker host. */
module ContainerProofs {
  import opened Go
  import opened Text
  import opened DockerEngine
  import opened ContainerSpecs
  import opened ContainerModel

  /** Containers under other names are the same as before. */
  ghost predicate OthersUntouched(w: World, w': World, name: string) {
    forall n :: n != name ==>
      && (n in w'.engine.containers <==> n in w.engine.containers)
      && (n in w.engine.containers ==> w'.engine.containers[n] == w.engine.containers[n])
  }

  // ---- A freshly created container meets its spec ----

  lemma {:induction false} ResolvedEnv(w: World, env: seq<string>, vars: seq<EnvVar>)
    ensures var (w', r) := ResolveFrom(w, env, vars);
      && w'.engine == w.engine && w'.ops == w.ops && w'.objects == w.objects && w'.secrets == w.secrets
      && (r.Some? ==> env <= r.value && |r.value| == |env| + |vars|)
    decreases |vars|
  {
    if vars != [] {
      var v := vars[0];
      if v.secretRef.None? {
        ResolvedEnv(w, env + [v.name + "=" + v.value], vars[1..]);
      } else {
        var (w1, ok) := Read(w);
        if ok && v.secretRef.value in w1.secrets {
          ResolvedEnv(w1, env + [v.name + "=" + w1.secrets[v.secretRef.value]], vars[1..]);
        }
      }
    }
  }

  /** What create asks for is what needsRecreate looks for, whatever the image adds of its own. */
  lemma RequestMeetsSpec(lib: Lib, en: Engine, spec: Spec, env: seq<string>, bindings: PortMap)
    requires spec.env <= env
    ensures !NeedsRecreate(lib.floats, Some(Completed(en, RequestedConfig(spec, env, bindings))),
                           Some(RequestedHost(lib.floats, spec, bindings)), spec)
  {
    var config := Completed(en, RequestedConfig(spec, env, bindings));
    assert env <= config.env;
    forall i | 0 <= i < |spec.env| ensures spec.env[i] in config.env {
      assert config.env[i] == spec.env[i];
    }
    assert ToLower(ToLower(spec.restartPolicy)) == ToLower(spec.restartPolicy);
  }

  /** The container under the name and what was uploaded to it. */
  ghost predicate Stands(lib: Lib, w: World, name: string, spec: Spec, state: State, uploads: seq<string>) {
    && name in w.engine.containers
    && var c := w.engine.containers[name];
      !Outdated(lib, c, spec) && c.state == state && c.uploads == uploads
  }

  lemma {:induction false} UploadsKeep(lib: Lib, w: World, name: string, id: nat, secrets: seq<string>,
                                       spec: Spec, uploads: seq<string>)
    requires Stands(lib, w, name, spec, Created, uploads) && w.engine.containers[name].id == id
    ensures var (w', ok) := UploadAll(w, name, id, secrets);
      && OthersUntouched(w, w', name)
      && (ok ==> Stands(lib, w', name, spec, Created, uploads + secrets) && w'.engine.containers[name].id == id)
    decreases |secrets|
  {
    if secrets == [] {
      assert uploads + secrets == uploads;
    } else {
      var (w1, ok) := Upload(w, name, id, secrets[0]);
      if ok {
        UploadsKeep(lib, w1, name, id, secrets[1..], spec, uploads + [secrets[0]]);
        assert uploads + [secrets[0]] + secrets[1..] == uploads + secrets;
      }
    }
  }

  lemma StartKeeps(lib: Lib, w: World, name: string, id: nat, spec: Spec, uploads: seq<string>)
    requires Stands(lib, w, name, spec, Created, uploads) && w.engine.containers[name].id == id
    ensures var (w', err) := StartContainer(w, ById(name, id));
      OthersUntouched(w, w', name) && (err == Ok ==> Stands(lib, w', name, spec, Running, uploads))
  {
  }

  lemma BringSucceeds(lib: Lib, w: World, key: string, spec: Spec, name: string, id: nat, status: Status)
    requires Stands(lib, w, name, spec, Created, []) && w.engine.containers[name].id == id
    ensures var (w', ok) := Bring(w, key, spec, name, id, status);
      && OthersUntouched(w, w', name)
      && (ok ==> Stands(lib, w', name, spec, Running, spec.secretVolumes))
  {
    UploadsKeep(lib, w, name, id, spec.secretVolumes, spec, []);
    assert [] + spec.secretVolumes == spec.secretVolumes;
    var (w1, uploaded) := UploadAll(w, name, id, spec.secretVolumes);
    if uploaded {
      StartKeeps(lib, w1, name, id, spec, spec.secretVolumes);
    }
  }

  lemma EnsureImageKeeps(w: World, spec: Spec)
    ensures var w' := EnsureImage(w, spec).0;
      w'.engine == w.engine && w'.ops == w.ops && w'.objects == w.objects && w'.secrets == w.secrets
  {
  }

  lemma ProvisionSucceeds(lib: Lib, w: World, key: string, cr: Stored, name: string)
    ensures var (w', ok) := Provision(lib, w, key, cr, name);
      && OthersUntouched(w, w', name)
      && (ok ==> Stands(lib, w', name, cr.spec, Running, cr.spec.secretVolumes))
  {
    EnsureImageKeeps(w, cr.spec);
    var (w1, image) := EnsureImage(w, cr.spec);
    var bindings := ParsePorts(cr.spec.ports);
    if image && bindings.Some? {
      ResolvedEnv(w1, cr.spec.env, cr.spec.envVars);
      var (w2, env) := ResolveFrom(w1, cr.spec.env, cr.spec.envVars);
      if env.Some? {
        RequestMeetsSpec(lib, w2.engine, cr.spec, env.value, bindings.value);
        var (w3, err, id) := CreateContainer(w2, name, RequestedConfig(cr.spec, env.value, bindings.value),
                                             RequestedHost(lib.floats, cr.spec, bindings.value));
        if err == Ok {
          BringSucceeds(lib, w3, key, cr.spec, name, id, cr.status);
        }
      }
    }
  }

  // ---- Enforcing ----

  /** The container stays if it matches the spec. */
  predicate Stays(lib: Lib, w: World, name: string, spec: Spec) {
    name in w.engine.containers && !Outdated(lib, w.engine.containers[name], spec)
  }

  lemma ReplaceSucceeds(lib: Lib, w: World, key: string, cr: Stored, name: string, id: nat)
    ensures var (w', ok) := Replace(lib, w, key, cr, name, id);
      && OthersUntouched(w, w', name)
      && (ok ==> Stands(lib, w', name, cr.spec, Running, cr.spec.secretVolumes))
  {
    var (w1, _) := StopContainer(w, ById(name, id));
    assert OthersUntouched(w, w1, name);
    var (w2, _) := RemoveContainer(w1, ById(name, id));
    assert OthersUntouched(w, w2, name);
    ProvisionSucceeds(lib, w2, key, cr, name);
  }

  lemma ReviveSucceeds(lib: Lib, w: World, key: string, cr: Stored, name: string)
    requires Stays(lib, w, name, cr.spec)
    ensures var c := w.engine.containers[name];
      var (w', ok) := Revive(w, key, cr, name, c);
      && OthersUntouched(w, w', name)
      && (ok ==> Stands(lib, w', name, cr.spec, if c.state == Restarting then Restarting else Running, c.uploads))
  {
    var c := w.engine.containers[name];
    if c.state != Running {
      var (w1, err) := StartContainer(w, ById(name, c.id));
      assert OthersUntouched(w, w1, name);
      var state := if c.state == Restarting then Restarting else Running;
      assert err == Ok ==> Stands(lib, w1, name, cr.spec, state, c.uploads);
    }
  }

  /** From any Docker state, an enforcing sync that succeeds leaves a matching container under the name
      and touches no other one. The container is running, with its secrets if it was created by this
      very sync; the one exception is a container that was found matching but restarting, which
      Docker takes for started. */
  lemma EnforceSync(lib: Lib, w: World, key: string, cr: Stored, name: string, order: seq<PortKey>)
    requires ModeFor(cr.spec, cr.owners) == Enforce
    ensures var (w', ok) := Sync(lib, w, key, cr, name, order);
      && OthersUntouched(w, w', name)
      && (ok ==>
            && name in w'.engine.containers
            && !Outdated(lib, w'.engine.containers[name], cr.spec)
            && (w'.engine.containers[name].state == Running <==>
                  !(Stays(lib, w, name, cr.spec) && w.engine.containers[name].state == Restarting))
            && w'.engine.containers[name].uploads ==
                 if Stays(lib, w, name, cr.spec) then w.engine.containers[name].uploads else cr.spec.secretVolumes)
  {
    var (w1, listed) := Read(w);
    if listed {
      if name !in w1.engine.containers {
        ProvisionSucceeds(lib, w1, key, cr, name);
      } else {
        var id := w1.engine.containers[name].id;
        var (w2, c, err) := InspectContainer(w1, ById(name, id));
        if err == Ok {
          if Outdated(lib, c.value, cr.spec) {
            ReplaceSucceeds(lib, w2, key, cr, name, id);
          } else {
            ReviveSucceeds(lib, w2, key, cr, name);
          }
        }
      }
    }
  }

  /** Once the container matches and runs, no sync makes a call that could change the host, however
      the calls of that sync end. */
  lemma EnforceSettles(lib: Lib, w: World, key: string, cr: Stored, name: string, order: seq<PortKey>)
    requires ModeFor(cr.spec, cr.owners) == Enforce
    requires Stays(lib, w, name, cr.spec) && w.engine.containers[name].state == Running
    ensures var w' := Sync(lib, w, key, cr, name, order).0; w'.ops == w.ops && w'.engine == w.engine
  {
  }

  /** The second of two enforcing syncs changes nothing if the first succeeded, unless the container
      was left restarting. */
  lemma EnforceTwice(lib: Lib, w: World, key: string, cr: Stored, name: string, order: seq<PortKey>, tape: seq<Outcome>)
    requires ModeFor(cr.spec, cr.owners) == Enforce
    requires !(Stays(lib, w, name, cr.spec) && w.engine.containers[name].state == Restarting)
    ensures var (w1, ok) := Sync(lib, w, key, cr, name, order);
      var w2 := Sync(lib, w1.(tape := tape), key, cr, name, order).0;
      ok ==> w2.ops == w1.ops && w2.engine == w1.engine
  {
    EnforceSync(lib, w, key, cr, name, order);
    var (w1, ok) := Sync(lib, w, key, cr, name, order);
    if ok {
      EnforceSettles(lib, w1.(tape := tape), key, cr, name, order);
    }
  }

  /** A restarting container is sent a start by every sync, and stays restarting. */
  lemma RestartingIsStartedForEver(lib: Lib, w: World, key: string, cr: Stored, name: string, order: seq<PortKey>)
    requires ModeFor(cr.spec, cr.owners) == Enforce && key in w.objects && !cr.deleting
    requires Stays(lib, w, name, cr.spec) && w.engine.containers[name].state == Restarting
    requires |w.tape| >= 4 && forall i :: 0 <= i < |w.tape| ==> w.tape[i] == Done
    ensures var (w', ok) := Sync(lib, w, key, cr, name, order);
      ok && w'.ops == w.ops + [OpStart(name)] && w'.engine == w.engine
  {
  }

  /** If the upload of a secret fails after the container was created, the next sync starts the
      container without it and reports success. */
  lemma SecretsAreSkipped(lib: Lib, w: World, key: string, cr: Stored, name: string, order: seq<PortKey>)
    requires ModeFor(cr.spec, cr.owners) == Enforce && key in w.objects
    requires name !in w.engine.containers && cr.spec.secretVolumes != []
    requires cr.spec.imagePullSecret == "" && cr.spec.ports == [] && cr.spec.envVars == []
    ensures var w1 := Sync(lib, w.(tape := [Done, Done, Done]), key, cr, name, order).0;
      var (w2, ok) := Sync(lib, w1.(tape := [Done, Done, Done, Done]), key, cr, name, order);
      && ok
      && name in w2.engine.containers
      && w2.engine.containers[name].state == Running
      && w2.engine.containers[name].uploads == []
  {
    var w0 := w.(tape := [Done, Done, Done]);
    var (w1, _) := Read(w0);
    var (w2, _) := EnsureImage(w1, cr.spec);
    var (w3, err, id) := CreateContainer(w2, name, RequestedConfig(cr.spec, cr.spec.env, map[]),
                                         RequestedHost(lib.floats, cr.spec, map[]));
    RequestMeetsSpec(lib, w2.engine, cr.spec, cr.spec.env, map[]);
    assert err == Ok && w3.tape == [];
    assert !UploadAll(w3, name, id, cr.spec.secretVolumes).1;
    var w4 := Sync(lib, w0, key, cr, name, order).0;
    assert Stands(lib, w4, name, cr.spec, Created, []);
    assert key in w4.objects;
  }

  // ---- When every call succeeds ----

  /** At least n calls lie ahead, and all of them succeed. */
  ghost predicate Smooth(w: World, n: int) {
    |w.tape| >= n && forall i :: 0 <= i < |w.tape| ==> w.tape[i] == Done
  }

  predicate SecretsFound(w: World, vars: seq<EnvVar>) {
    forall i :: 0 <= i < |vars| && vars[i].secretRef.Some? ==> vars[i].secretRef.value in w.secrets
  }

  lemma {:induction false} SmoothResolve(w: World, env: seq<string>, vars: seq<EnvVar>, n: nat)
    requires Smooth(w, n + |vars|)
    ensures var (w', r) := ResolveFrom(w, env, vars);
      Smooth(w', n) && (r.Some? <==> SecretsFound(w, vars))
    decreases |vars|
  {
    if vars != [] {
      var v := vars[0];
      var found := v.secretRef.Some? ==> v.secretRef.value in w.secrets;
      assert SecretsFound(w, vars) <==> found && SecretsFound(w, vars[1..]);
      if v.secretRef.None? {
        SmoothResolve(w, env + [v.name + "=" + v.value], vars[1..], n);
      } else if v.secretRef.value in w.secrets {
        var (w1, _) := Read(w);
        SmoothResolve(w1, env + [v.name + "=" + w.secrets[v.secretRef.value]], vars[1..], n);
      }
    }
  }

  lemma {:induction false} SmoothUploads(w: World, name: string, id: nat, secrets: seq<string>, n: nat)
    requires Smooth(w, n + |secrets|) && Resolves(w.engine, ById(name, id))
    ensures var (w', ok) := UploadAll(w, name, id, secrets);
      && ok && Smooth(w', n) && Resolves(w'.engine, ById(name, id)) && w'.objects == w.objects
      && w'.engine.containers[name].state == w.engine.containers[name].state
    decreases |secrets|
  {
    if secrets != [] {
      SmoothUploads(Upload(w, name, id, secrets[0]).0, name, id, secrets[1..], n);
    }
  }

  lemma SmoothBring(w: World, key: string, spec: Spec, name: string, id: nat, status: Status)
    requires Smooth(w, 3 + |spec.secretVolumes|) && Resolves(w.engine, ById(name, id)) && key in w.objects
    requires w.engine.containers[name].state == Created
    ensures Bring(w, key, spec, name, id, status).1
  {
    SmoothUploads(w, name, id, spec.secretVolumes, 3);
    var (w1, _) := UploadAll(w, name, id, spec.secretVolumes);
    var (w2, _) := StartContainer(w1, ById(name, id));
    assert Smooth(w2, 2);
    var (w3, _, _) := InspectContainer(w2, ById(name, id));
    assert Smooth(w3, 1);
  }

  /** How many calls provisioning makes at most. */
  function Budget(spec: Spec): nat {
    6 + |spec.envVars| + |spec.secretVolumes|
  }

  lemma SmoothProvision(lib: Lib, w: World, key: string, cr: Stored, name: string)
    requires Smooth(w, Budget(cr.spec)) && name !in w.engine.containers && key in w.objects
    ensures Provision(lib, w, key, cr, name).1 <==> ParsePorts(cr.spec.ports).Some? && SecretsFound(w, cr.spec.envVars)
  {
    EnsureImageKeeps(w, cr.spec);
    var (w1, image) := EnsureImage(w, cr.spec);
    assert image && Smooth(w1, 4 + |cr.spec.envVars| + |cr.spec.secretVolumes|);
    var bindings := ParsePorts(cr.spec.ports);
    SmoothResolve(w1, cr.spec.env, cr.spec.envVars, 4 + |cr.spec.secretVolumes|);
    ResolvedEnv(w1, cr.spec.env, cr.spec.envVars);
    var (w2, env) := ResolveFrom(w1, cr.spec.env, cr.spec.envVars);
    if bindings.Some? && env.Some? {
      var (w3, err, id) := CreateContainer(w2, name, RequestedConfig(cr.spec, env.value, bindings.value),
                                           RequestedHost(lib.floats, cr.spec, bindings.value));
      SmoothBring(w3, key, cr.spec, name, id, cr.status);
    }
  }

  /** With every call succeeding, an enforcing sync fails exactly if the container matches but cannot
      be started as it is, or does not match and the spec has a malformed port or a missing secret. */
  lemma SmoothSync(lib: Lib, w: World, key: string, cr: Stored, name: string, order: seq<PortKey>)
    requires ModeFor(cr.spec, cr.owners) == Enforce && key in w.objects
    requires Smooth(w, 4 + Budget(cr.spec))
    ensures Sync(lib, w, key, cr, name, order).1 <==>
      if Stays(lib, w, name, cr.spec) then
        w.engine.containers[name].state != Paused && w.engine.containers[name].state != Dead
      else
        ParsePorts(cr.spec.ports).Some? && SecretsFound(w, cr.spec.envVars)
  {
    var (w1, _) := Read(w);
    if name !in w.engine.containers {
      SmoothProvision(lib, w1, key, cr, name);
    } else {
      var id := w.engine.containers[name].id;
      var (w2, c, err) := InspectContainer(w1, ById(name, id));
      assert Smooth(w2, 2 + Budget(cr.spec));
      if Outdated(lib, c.value, cr.spec) {
        var (w3, _) := StopContainer(w2, ById(name, id));
        assert Smooth(w3, 1 + Budget(cr.spec));
        var (w4, removed) := RemoveContainer(w3, ById(name, id));
        assert removed == Ok && Smooth(w4, Budget(cr.spec));
        SmoothProvision(lib, w4, key, cr, name);
      }
    }
  }

  // ---- Deletion ----

  lemma {:induction false} RemovedAll(w: World, names: seq<string>)
    requires Smooth(w, |names|)
    ensures var w' := RemoveAll(w, names);
      && Smooth(w', |w.tape| - |names|) && w'.objects == w.objects
      && forall n :: n in w'.engine.containers <==> n in w.engine.containers && n !in names
    decreases |names|
  {
    if names != [] {
      var w1 := RemoveContainer(w, ByName(names[0])).0;
      RemovedAll(w1, names[1..]);
      assert names == [names[0]] + names[1..];
    }
  }

  lemma {:induction false} TunnelNamesCount(name: string, key: string, from: nat)
    requires from <= 10
    ensures |TunnelNames(name, key, from)| == 2 * (10 - from)
    decreases 10 - from
  {
    if from < 10 {
      TunnelNamesCount(name, key, from + 1);
    }
  }

  /** A tunnel container of that name: one of ten. */
  predicate TunnelOf(n: string, name: string) {
    exists i :: 0 <= i < 10 && n == name + "-tunnel-" + ["0123456789"[i]]
  }

  lemma {:induction false} TunnelNamesAre(name: string, key: string, from: nat, n: string)
    requires from <= 10
    ensures n in TunnelNames(name, key, from) <==>
            exists i :: from <= i < 10 && (n == TunnelName(name, i) || n == TunnelName(key, i))
    decreases 10 - from
  {
    if from < 10 {
      TunnelNamesAre(name, key, from + 1, n);
    }
  }

  lemma OneDigit(i: nat)
    requires i < 10
    ensures FormatInt(i) == ["0123456789"[i]]
  {
    assert Digit(i) == "0123456789"[i];
  }

  lemma TunnelNamesAreTunnels(name: string, key: string, n: string)
    ensures n in TunnelNames(name, key, 0) <==> TunnelOf(n, name) || TunnelOf(n, key)
  {
    TunnelNamesAre(name, key, 0, n);
    forall i: nat | i < 10 ensures FormatInt(i) == ["0123456789"[i]] {
      OneDigit(i);
    }
  }

  /** When every call succeeds, deleting a resource removes its container, the ten tunnels of both names
      and the tunnel of the old naming, and nothing else. */
  lemma SmoothDeletion(lib: Lib, w: World, key: string, order: seq<PortKey>)
    requires key in w.objects && w.objects[key].deleting && w.objects[key].finalizers == {FINALIZER}
    requires !SkipsRuntimeDeletion(w.objects[key]) && Smooth(w, 25)
    ensures var name := RuntimeName(key, w.objects[key]);
      var (w', ok) := Reconcile(lib, w, key, order);
      && ok && key !in w'.objects
      && forall n :: n in w'.engine.containers <==>
           && n in w.engine.containers
           && n != name && n != name + "-tunnel" && !TunnelOf(n, name) && !TunnelOf(n, key)
  {
    var name := RuntimeName(key, w.objects[key]);
    forall n ensures n in TunnelNames(name, key, 0) <==> TunnelOf(n, name) || TunnelOf(n, key) {
      TunnelNamesAreTunnels(name, key, n);
    }
    var (w1, _) := Read(w);
    var (w2, _) := Read(w1);
    var (w3, err) := RemoveContainer(w2, ByName(name));
    TunnelNamesCount(name, key, 0);
    RemovedAll(w3, TunnelNames(name, key, 0) + [name + "-tunnel"]);
  }

  /** How the i-th call of a pass ends. */
  function OutcomeAt(w: World, i: nat): Outcome {
    if i < |w.tape| then w.tape[i] else Refused
  }

  lemma {:induction false} RemoveAllShrinks(w: World, names: seq<string>)
    ensures var w' := RemoveAll(w, names);
      w'.objects == w.objects && w'.engine.containers.Keys <= w.engine.containers.Keys
    decreases |names|
  {
    if names != [] {
      RemoveAllShrinks(RemoveContainer(w, ByName(names[0])).0, names[1..]);
    }
  }

  lemma ExternalDeletion(w: World, key: string, cr: Stored, name: string)
    ensures var v := DeleteExternal(w, key, cr, name);
      && v.objects == w.objects
      && (SkipsRuntimeDeletion(cr) || OutcomeAt(w, 0) == Refused ==> v.engine == w.engine)
      && (SkipsRuntimeDeletion(cr) ==> v == w)
      && (name in v.engine.containers <==>
            name in w.engine.containers && (SkipsRuntimeDeletion(cr) || OutcomeAt(w, 0) == Refused))
  {
    if !SkipsRuntimeDeletion(cr) {
      var (w1, err) := RemoveContainer(w, ByName(name));
      RemoveAllShrinks(w1, TunnelNames(name, key, 0) + [name + "-tunnel"]);
    }
  }

  lemma LastFinalizerGoes(w: World, key: string, cr: Stored)
    requires key in w.objects && cr.deleting && cr.finalizers == {FINALIZER}
    ensures var (v, ok) := Put(w, key, cr.(finalizers := cr.finalizers - {FINALIZER}));
      && v.engine == w.engine && v.ops == w.ops && (ok ==> key !in v.objects)
      && (OutcomeAt(w, 0) == Done ==> ok)
  {
    assert cr.finalizers - {FINALIZER} == {};
  }

  /** A pass over a resource that is being deleted leaves its container exactly if there was one and the
      resource is adopted and observed, or the resource or the Docker host could not be reached, or the
      removal was refused. The object goes with the write of its finalizer, whatever became of the
      container. */
  lemma DeletionExactly(lib: Lib, w: World, key: string, order: seq<PortKey>)
    requires key in w.objects && w.objects[key].deleting && w.objects[key].finalizers == {FINALIZER}
    ensures var cr := w.objects[key];
      var name := RuntimeName(key, cr);
      var (w', ok) := Reconcile(lib, w, key, order);
      && (ok ==> key !in w'.objects)
      && (cr.status.adopted && ModeFor(cr.spec, cr.owners) == Observe ==> w'.engine == w.engine && w'.ops == w.ops)
      && (name in w'.engine.containers <==>
            && name in w.engine.containers
            && (|| (cr.status.adopted && ModeFor(cr.spec, cr.owners) == Observe)
                || OutcomeAt(w, 0) != Done || OutcomeAt(w, 1) != Done || OutcomeAt(w, 2) == Refused))
  {
    var cr := w.objects[key];
    var name := RuntimeName(key, cr);
    var (w1, got) := Read(w);
    if got {
      var (w2, client) := Read(w1);
      assert OutcomeAt(w1, 0) == OutcomeAt(w, 1) && OutcomeAt(w2, 0) == OutcomeAt(w, 2);
      var w3 := if client then DeleteExternal(w2, key, cr, name) else w2;
      if client {
        ExternalDeletion(w2, key, cr, name);
      }
      LastFinalizerGoes(w3, key, cr);
    }
  }

  /** So a Docker host that cannot be reached when the resource is deleted keeps the container for good:
      the object is gone and nobody is left to try again. */
  lemma UnreachableHostKeepsContainer(lib: Lib, w: World, key: string, order: seq<PortKey>)
    requires key in w.objects && w.objects[key].deleting && w.objects[key].finalizers == {FINALIZER}
    requires RuntimeName(key, w.objects[key]) in w.engine.containers
    requires OutcomeAt(w, 0) == Done && OutcomeAt(w, 1) != Done && OutcomeAt(w, 2) == Done
    ensures var (w', ok) := Reconcile(lib, w, key, order);
      ok && key !in w'.objects && RuntimeName(key, w.objects[key]) in w'.engine.containers
  {
    DeletionExactly(lib, w, key, order);
    var cr := w.objects[key];
    var (w1, _) := Read(w);
    var (w2, _) := Read(w1);
    LastFinalizerGoes(w2, key, cr);
  }

  /** And an observed resource that is deleted before its first observe pass takes its container along, if
      the removal takes effect. */
  lemma UnobservedDeletionRemoves(lib: Lib, w: World, key: string, order: seq<PortKey>)
    requires key in w.objects && w.objects[key].deleting && w.objects[key].finalizers == {FINALIZER}
    requires ModeFor(w.objects[key].spec, w.objects[key].owners) == Observe && !w.objects[key].status.adopted
    requires OutcomeAt(w, 0) == Done && OutcomeAt(w, 1) == Done && OutcomeAt(w, 2) != Refused
    ensures RuntimeName(key, w.objects[key]) !in Reconcile(lib, w, key, order).0.engine.containers
  {
    DeletionExactly(lib, w, key, order);
  }
}
