/** What an enforced container is like, in terms of its resource alone. */
module EnforcedContainers {
  import opened Go
  import opened Text
  import opened Floats
  import opened DockerEngine
  import opened ContainerSpecs
  import Adoption
  import opened ContainerModel
  import opened ContainerProofs

  // ---- A container that matches ----

  predicate LimitsOf(f: Floats, spec: Spec, host: HostConfig) {
    && (spec.resources.None? ==> host.nanoCPUs == 0 && host.memory == 0)
    && (spec.resources.Some? ==>
          var r := spec.resources.value;
          && host.nanoCPUs == (if r.cpuLimit == "" then 0 else ParseCPU(f, r.cpuLimit))
          && host.memory == (if r.memoryLimit == "" then 0 else ParseMemory(r.memoryLimit)))
  }

  /** The container runs the image of the spec, its command if it gives one, with all of its literal
      environment, and with its restart policy and its limits if it gives any. */
  ghost predicate MatchesSpec(lib: Lib, spec: Spec, c: Container) {
    && c.config.image == spec.image
    && (spec.command != [] ==> c.config.cmd == spec.command)
    && (forall e :: e in spec.env ==> e in c.config.env)
    && (spec.restartPolicy != "" ==> ToLower(c.host.restartPolicy) == ToLower(spec.restartPolicy))
    && (spec.resources.Some? ==> LimitsOf(lib.floats, spec, c.host))
  }

  lemma OutdatedExactly(lib: Lib, spec: Spec, c: Container)
    ensures Outdated(lib, c, spec) <==> !MatchesSpec(lib, spec, c)
  {
    if MatchesSpec(lib, spec, c) {
      forall i | 0 <= i < |spec.env| ensures spec.env[i] in c.config.env {
        assert spec.env[i] in spec.env;
      }
    }
  }

  // ---- Published ports ----

  /** What an entry of spec.ports asks for: the host port and the container port. */
  function PortEntry(text: string): Option<(string, PortKey)> {
    var parts := Cut(text, ':');
    if parts.None? then None
    else
      var key := NewPort("tcp", parts.value.1);
      if key.None? then None else Some((parts.value.0, key.value))
  }

  /** The bindings of one container port: one on every address for each entry that names it, in order. */
  function BindingsFor(ports: seq<string>, key: PortKey): seq<PortBinding> {
    if ports == [] then []
    else
      var k := |ports| - 1;
      var entry := PortEntry(ports[k]);
      BindingsFor(ports[..k], key) +
      if entry.Some? && entry.value.1 == key then [PortBinding("0.0.0.0", entry.value.0)] else []
  }

  predicate PortsReadable(ports: seq<string>) {
    forall i :: 0 <= i < |ports| ==> PortEntry(ports[i]).Some?
  }

  function At(m: PortMap, key: PortKey): seq<PortBinding> {
    if key in m then m[key] else []
  }

  /** Exactly the named container ports are bound. */
  ghost predicate Publishes(ports: seq<string>, m: PortMap) {
    && (forall key :: At(m, key) == BindingsFor(ports, key))
    && (forall key :: key in m ==> m[key] != [])
  }

  lemma {:induction false} ParsedFrom(done: seq<string>, m: PortMap, ports: seq<string>)
    requires Publishes(done, m)
    ensures var r := ParsePortsFrom(m, ports);
      && (r.Some? <==> PortsReadable(ports))
      && (r.Some? ==> Publishes(done + ports, r.value))
    decreases |ports|
  {
    if ports == [] {
      assert done + ports == done;
    } else {
      var next := ParsePort(m, ports[0]);
      assert ports == [ports[0]] + ports[1..];
      assert next.Some? <==> PortEntry(ports[0]).Some?;
      if next.Some? {
        var more := done + [ports[0]];
        assert more[..|done|] == done;
        ParsedFrom(more, next.value, ports[1..]);
        assert more + ports[1..] == done + ports;
      }
    }
  }

  /** The ports of a spec parse exactly if every entry is readable, and then publish exactly what they say. */
  lemma PortsAreBound(ports: seq<string>)
    ensures var r := ParsePorts(ports);
      && (r.Some? <==> PortsReadable(ports))
      && (r.Some? ==> Publishes(ports, r.value))
  {
    ParsedFrom([], map[], ports);
    assert [] + ports == ports;
  }

  lemma PortNumberRead(n: nat)
    ensures ParsePortNumber(FormatInt(n)) == if n <= 65535 then Some(n) else None
    ensures '-' !in FormatInt(n) && FormatInt(n) != ""
  {
    NatRoundTrip(n);
    assert AllDigits(FormatInt(n));
  }

  /** The text h:n publishes port n on h, if there is such a port. */
  lemma PlainEntry(h: string, n: nat)
    requires ':' !in h
    ensures PortEntry(h + ":" + FormatInt(n)) == if n <= 65535 then Some((h, PortKey(n, n, "tcp"))) else None
  {
    CutAt(h, ':', FormatInt(n));
    PortNumberRead(n);
    CutNone(FormatInt(n), '-');
  }

  lemma UpperBound(b: nat, rest: string)
    requires rest != "" ==> rest[0] == '-'
    ensures var upper := FormatInt(b) + rest;
      var cut := Cut(upper, '-');
      (if cut.None? then upper else cut.value.0) == FormatInt(b)
  {
    PortNumberRead(b);
    var upper := FormatInt(b) + rest;
    if rest == "" {
      assert upper == FormatInt(b);
      CutNone(upper, '-');
    } else {
      assert upper == FormatInt(b) + ['-'] + rest[1..];
      CutAt(FormatInt(b), '-', rest[1..]);
    }
  }

  /** The text h:a-b publishes a range, if there is one; what follows a second dash is not looked at. */
  lemma RangeEntry(h: string, a: nat, b: nat, rest: string)
    requires ':' !in h && (rest != "" ==> rest[0] == '-')
    ensures PortEntry(h + ":" + (FormatInt(a) + "-" + (FormatInt(b) + rest))) ==
            if a <= b <= 65535 then Some((h, PortKey(a, b, "tcp"))) else None
  {
    var upper := FormatInt(b) + rest;
    var text := FormatInt(a) + ['-'] + upper;
    CutAt(h, ':', text);
    assert h + [':'] + text == h + ":" + (FormatInt(a) + "-" + upper);
    PortNumberRead(a);
    PortNumberRead(b);
    CutAt(FormatInt(a), '-', upper);
    UpperBound(b, rest);
  }

  /** Any other text has no meaning: one without a colon, and one whose part after the colon is neither a number
      nor a range. Nothing after the colon stands for port 0. */
  lemma UnreadableEntry(h: string, t: string)
    requires ':' !in h && '-' !in t
    ensures PortEntry(h) == None
    ensures !AllDigits(t) ==> PortEntry(h + ":" + t) == None
    ensures PortEntry(h + ":") == Some((h, PortKey(0, 0, "tcp")))
  {
    CutNone(h, ':');
    CutAt(h, ':', t);
    CutNone(t, '-');
    CutAt(h, ':', "");
    assert h + [':'] + "" == h + ":";
  }

  /** A mapping that adoption writes for a port or a range is read as that, over tcp. */
  lemma MappingIsRead(h: string, key: PortKey)
    requires ':' !in h && key.first <= key.last <= 65535
    ensures PortEntry(Adoption.Mapping(h, key)) == Some((h, key.(proto := "tcp")))
  {
    if key.first == key.last {
      PlainEntry(h, key.first);
    } else {
      RangeEntry(h, key.first, key.last, "");
      assert FormatInt(key.last) + "" == FormatInt(key.last);
    }
  }

  lemma {:induction false} NamedIsBound(ports: seq<string>, i: nat, h: string, key: PortKey)
    requires i < |ports| && PortEntry(ports[i]) == Some((h, key))
    ensures PortBinding("0.0.0.0", h) in BindingsFor(ports, key)
    decreases |ports|
  {
    if i < |ports| - 1 {
      NamedIsBound(ports[..|ports| - 1], i, h, key);
    }
  }

  // ---- A container that was created ----

  /** The text of a mount. */
  predicate IsBind(text: string, v: VolumeMount) {
    text == v.hostPath + ":" + v.containerPath + (if v.readOnly then ":ro" else "")
  }

  /** The text of a variable, with the secret it refers to. */
  predicate IsVariable(text: string, v: EnvVar, secrets: map<(string, string), string>) {
    if v.secretRef.None? then text == v.name + "=" + v.value
    else v.secretRef.value in secrets && text == v.name + "=" + secrets[v.secretRef.value]
  }

  ghost predicate Mounted(binds: seq<string>, mounts: seq<VolumeMount>) {
    |binds| == |mounts| && forall i :: 0 <= i < |mounts| ==> IsBind(binds[i], mounts[i])
  }

  /** The literal entries, then the variables in order. */
  ghost predicate Environment(env: seq<string>, spec: Spec, secrets: map<(string, string), string>) {
    && |env| >= |spec.env| + |spec.envVars| && env[..|spec.env|] == spec.env
    && forall i :: 0 <= i < |spec.envVars| ==> IsVariable(env[|spec.env| + i], spec.envVars[i], secrets)
  }

  /** The container is the operator's and has everything that the spec asks for. */
  ghost predicate MadeFor(lib: Lib, spec: Spec, secrets: map<(string, string), string>, c: Container) {
    && c.origin == ByOperator
    && MatchesSpec(lib, spec, c)
    && Environment(c.config.env, spec, secrets)
    && c.config.exposed == c.host.bindings.Keys
    && Publishes(spec.ports, c.host.bindings)
    && Mounted(c.host.binds, spec.volumeMounts)
    && c.host.networkMode == spec.networkMode
    && c.host.restartPolicy == ToLower(if spec.restartPolicy == "" then "always" else spec.restartPolicy)
    && LimitsOf(lib.floats, spec, c.host)
  }

  lemma {:induction false} BindsAreTexts(mounts: seq<VolumeMount>)
    ensures Mounted(Binds(mounts), mounts)
  {
    if mounts != [] {
      BindsAreTexts(mounts[1..]);
      var rest := Binds(mounts[1..]);
      forall i | 0 <= i < |mounts| ensures IsBind(Binds(mounts)[i], mounts[i]) {
        assert i > 0 ==> IsBind(rest[i - 1], mounts[1..][i - 1]);
      }
    }
  }

  lemma {:induction false} VariablesResolved(w: World, env: seq<string>, vars: seq<EnvVar>)
    ensures var r := ResolveFrom(w, env, vars).1;
      r.Some? ==>
        && |r.value| == |env| + |vars| && r.value[..|env|] == env
        && forall i :: 0 <= i < |vars| ==> IsVariable(r.value[|env| + i], vars[i], w.secrets)
    decreases |vars|
  {
    if vars != [] {
      var v := vars[0];
      var w1 := if v.secretRef.None? then w else Read(w).0;
      if v.secretRef.Some? ==> Read(w).1 && v.secretRef.value in w1.secrets {
        var text := v.name + "=" + (if v.secretRef.None? then v.value else w1.secrets[v.secretRef.value]);
        VariablesResolved(w1, env + [text], vars[1..]);
        var r := ResolveFrom(w, env, vars).1;
        assert r == ResolveFrom(w1, env + [text], vars[1..]).1;
        if r.Some? {
          assert r.value[..|env|] == r.value[..|env| + 1][..|env|] && r.value[|env|] == text;
          forall i | 0 <= i < |vars| ensures IsVariable(r.value[|env| + i], vars[i], w.secrets) {
            assert i > 0 ==> IsVariable(r.value[|env + [text]| + (i - 1)], vars[1..][i - 1], w1.secrets);
          }
        }
      }
    }
  }

  /** The container is there and was made as before. */
  ghost predicate Remains(w: World, v: World, name: string) {
    name in w.engine.containers && name in v.engine.containers &&
    SameMake(w.engine.containers[name], v.engine.containers[name])
  }

  lemma {:induction false} UploadsRemain(w: World, name: string, id: nat, secrets: seq<string>)
    requires name in w.engine.containers
    ensures Remains(w, UploadAll(w, name, id, secrets).0, name)
    decreases |secrets|
  {
    if secrets != [] {
      UploadsRemain(Upload(w, name, id, secrets[0]).0, name, id, secrets[1..]);
    }
  }

  lemma BringRemains(w: World, key: string, spec: Spec, name: string, id: nat, status: Status)
    requires name in w.engine.containers
    ensures Remains(w, Bring(w, key, spec, name, id, status).0, name)
  {
    UploadsRemain(w, name, id, spec.secretVolumes);
  }

  lemma RequestIsMet(lib: Lib, en: Engine, spec: Spec, env: seq<string>, bindings: PortMap,
                     secrets: map<(string, string), string>, c: Container)
    requires Environment(env, spec, secrets) && Publishes(spec.ports, bindings)
    requires c.origin == ByOperator && c.config == Completed(en, RequestedConfig(spec, env, bindings))
    requires c.host == RequestedHost(lib.floats, spec, bindings)
    ensures MadeFor(lib, spec, secrets, c)
  {
    assert env <= c.config.env;
    forall e | e in spec.env ensures e in c.config.env {
      var i :| 0 <= i < |spec.env| && spec.env[i] == e;
      assert c.config.env[i] == env[..|spec.env|][i];
    }
    assert c.config.env[..|spec.env|] == env[..|spec.env|];
    BindsAreTexts(spec.volumeMounts);
    assert ToLower(ToLower(spec.restartPolicy)) == ToLower(spec.restartPolicy);
  }

  lemma CreatedForSpec(lib: Lib, w: World, spec: Spec, name: string, env: seq<string>, bindings: PortMap,
                       secrets: map<(string, string), string>)
    requires Environment(env, spec, secrets) && Publishes(spec.ports, bindings)
    ensures var (v, err, id) := CreateContainer(w, name, RequestedConfig(spec, env, bindings),
                                                RequestedHost(lib.floats, spec, bindings));
      err == Ok ==>
        && id == w.engine.nextId && name in v.engine.containers && v.engine.containers[name].id == id
        && MadeFor(lib, spec, secrets, v.engine.containers[name])
  {
    var (v, err, id) := CreateContainer(w, name, RequestedConfig(spec, env, bindings),
                                        RequestedHost(lib.floats, spec, bindings));
    if err == Ok {
      RequestIsMet(lib, w.engine, spec, env, bindings, secrets, v.engine.containers[name]);
    }
  }

  lemma ProvisionMakes(lib: Lib, w: World, key: string, cr: Stored, name: string)
    ensures var (v, ok) := Provision(lib, w, key, cr, name);
      ok ==>
        && name in v.engine.containers && v.engine.containers[name].id == w.engine.nextId
        && MadeFor(lib, cr.spec, w.secrets, v.engine.containers[name])
  {
    EnsureImageKeeps(w, cr.spec);
    var (w1, image) := EnsureImage(w, cr.spec);
    PortsAreBound(cr.spec.ports);
    var bindings := ParsePorts(cr.spec.ports);
    ResolvedEnv(w1, cr.spec.env, cr.spec.envVars);
    VariablesResolved(w1, cr.spec.env, cr.spec.envVars);
    var (w2, env) := ResolveFrom(w1, cr.spec.env, cr.spec.envVars);
    if image && bindings.Some? && env.Some? {
      CreatedForSpec(lib, w2, cr.spec, name, env.value, bindings.value, w.secrets);
      var (w3, err, id) := CreateContainer(w2, name, RequestedConfig(cr.spec, env.value, bindings.value),
                                           RequestedHost(lib.floats, cr.spec, bindings.value));
      if err == Ok {
        BringRemains(w3, key, cr.spec, name, id, cr.status);
      }
    }
  }

  // ---- The main results ----

  lemma ReplaceMakes(lib: Lib, w: World, key: string, cr: Stored, name: string, id: nat)
    ensures var (v, ok) := Replace(lib, w, key, cr, name, id);
      ok ==>
        && name in v.engine.containers && v.engine.containers[name].id == w.engine.nextId
        && MadeFor(lib, cr.spec, w.secrets, v.engine.containers[name])
  {
    var (w1, _) := StopContainer(w, ById(name, id));
    var (w2, _) := RemoveContainer(w1, ById(name, id));
    ProvisionMakes(lib, w2, key, cr, name);
  }

  lemma ReviveRemains(w: World, key: string, cr: Stored, name: string)
    requires name in w.engine.containers
    ensures Remains(w, Revive(w, key, cr, name, w.engine.containers[name]).0, name)
  {
  }

  /** An enforcing sync that succeeds keeps the container that it finds exactly if that one matches the spec,
      and otherwise leaves a new one that has everything the spec asks for. Either way the container under
      the name matches the spec afterwards. */
  lemma SyncLeavesMatching(lib: Lib, w: World, key: string, cr: Stored, name: string, order: seq<PortKey>)
    requires ModeFor(cr.spec, cr.owners) == Enforce && Sync(lib, w, key, cr, name, order).1
    ensures var v := Sync(lib, w, key, cr, name, order).0;
      && name in v.engine.containers
      && MatchesSpec(lib, cr.spec, v.engine.containers[name])
      && (if name in w.engine.containers && MatchesSpec(lib, cr.spec, w.engine.containers[name]) then
            SameMake(w.engine.containers[name], v.engine.containers[name])
          else
            && v.engine.containers[name].id == w.engine.nextId
            && MadeFor(lib, cr.spec, w.secrets, v.engine.containers[name]))
  {
    var (w1, listed) := Read(w);
    if name !in w1.engine.containers {
      ProvisionMakes(lib, w1, key, cr, name);
    } else {
      var c := w1.engine.containers[name];
      OutdatedExactly(lib, cr.spec, c);
      var (w2, seen, err) := InspectContainer(w1, ById(name, c.id));
      if Outdated(lib, c, cr.spec) {
        ReplaceMakes(lib, w2, key, cr, name, c.id);
      } else {
        ReviveRemains(w2, key, cr, name);
      }
    }
  }

  /** So every port of the spec that is written host:port is published there by a container that the sync
      creates. */
  lemma PlainPortsArePublished(lib: Lib, spec: Spec, secrets: map<(string, string), string>, c: Container,
                               i: nat, h: string, n: nat)
    requires MadeFor(lib, spec, secrets, c) && i < |spec.ports| && n <= 65535
    requires ':' !in h && spec.ports[i] == h + ":" + FormatInt(n)
    ensures var port := PortKey(n, n, "tcp");
      port in c.host.bindings && PortBinding("0.0.0.0", h) in c.host.bindings[port] && port in c.config.exposed
  {
    PlainEntry(h, n);
    NamedIsBound(spec.ports, i, h, PortKey(n, n, "tcp"));
    assert At(c.host.bindings, PortKey(n, n, "tcp")) != [];
  }

  // ---- What the resource says afterwards ----

  /** Only the status of the resource was written: the container's ID, and that it runs. */
  ghost predicate Reported(w: World, v: World, key: string, cr: Stored, name: string) {
    && key in w.objects && name in v.engine.containers
    && v.objects == w.objects[key := w.objects[key].(status :=
                                       cr.status.(id := Some(v.engine.containers[name].id), state := Runtime(Running)))]
  }

  lemma {:induction false} UploadsWriteNothing(w: World, name: string, id: nat, secrets: seq<string>)
    ensures UploadAll(w, name, id, secrets).0.objects == w.objects
    decreases |secrets|
  {
    if secrets != [] {
      UploadsWriteNothing(Upload(w, name, id, secrets[0]).0, name, id, secrets[1..]);
    }
  }

  lemma BringReports(w: World, key: string, cr: Stored, name: string, id: nat)
    requires name in w.engine.containers && w.engine.containers[name].id == id
    ensures var (v, ok) := Bring(w, key, cr.spec, name, id, cr.status); ok ==> Reported(w, v, key, cr, name)
  {
    UploadsWriteNothing(w, name, id, cr.spec.secretVolumes);
    BringRemains(w, key, cr.spec, name, id, cr.status);
  }

  lemma ProvisionReports(lib: Lib, w: World, key: string, cr: Stored, name: string)
    ensures var (v, ok) := Provision(lib, w, key, cr, name); ok ==> Reported(w, v, key, cr, name)
  {
    EnsureImageKeeps(w, cr.spec);
    var (w1, image) := EnsureImage(w, cr.spec);
    var bindings := ParsePorts(cr.spec.ports);
    ResolvedEnv(w1, cr.spec.env, cr.spec.envVars);
    var (w2, env) := ResolveFrom(w1, cr.spec.env, cr.spec.envVars);
    if image && bindings.Some? && env.Some? {
      var (w3, err, id) := CreateContainer(w2, name, RequestedConfig(cr.spec, env.value, bindings.value),
                                           RequestedHost(lib.floats, cr.spec, bindings.value));
      if err == Ok {
        BringReports(w3, key, cr, name, id);
      }
    }
  }

  lemma ReviveReports(w: World, key: string, cr: Stored, name: string)
    requires name in w.engine.containers
    ensures var (v, ok) := Revive(w, key, cr, name, w.engine.containers[name]); ok ==> Reported(w, v, key, cr, name)
  {
    ReviveRemains(w, key, cr, name);
  }

  /** An enforcing sync that succeeds reports the container under the name as running, and writes nothing
      else. */
  lemma SyncReports(lib: Lib, w: World, key: string, cr: Stored, name: string, order: seq<PortKey>)
    requires ModeFor(cr.spec, cr.owners) == Enforce && Sync(lib, w, key, cr, name, order).1
    ensures Reported(w, Sync(lib, w, key, cr, name, order).0, key, cr, name)
  {
    var (w1, listed) := Read(w);
    if name !in w1.engine.containers {
      ProvisionReports(lib, w1, key, cr, name);
    } else {
      var c := w1.engine.containers[name];
      var (w2, seen, err) := InspectContainer(w1, ById(name, c.id));
      if Outdated(lib, c, cr.spec) {
        var (w3, _) := StopContainer(w2, ById(name, c.id));
        var (w4, _) := RemoveContainer(w3, ById(name, c.id));
        ProvisionReports(lib, w4, key, cr, name);
      } else {
        ReviveReports(w2, key, cr, name);
      }
    }
  }
}
