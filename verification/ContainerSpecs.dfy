/** The spec of a DockerContainer, and the parts of its controller that only compute a result
    (internal/controller/dockercontainer_controller.go, internal/controller/dockercontainer_adopt.go). */
module ContainerSpecs {
  import opened Go
  import opened Text
  import opened Floats
  import opened DockerEngine

  datatype Resources = Resources(cpuLimit: string, memoryLimit: string)

  /** secretRef: the name and key of a Secret, for valueFrom. */
  datatype EnvVar = EnvVar(name: string, value: string, secretRef: Option<(string, string)>)

  datatype VolumeMount = VolumeMount(hostPath: string, containerPath: string, readOnly: bool)

  datatype Spec = Spec(
    image: string,
    imagePullSecret: string,
    containerName: string,
    dockerHostRef: string,
    restartPolicy: string,
    ports: seq<string>,
    env: seq<string>,
    envVars: seq<EnvVar>,
    volumeMounts: seq<VolumeMount>,
    secretVolumes: seq<string>,  // by secret name
    resources: Option<Resources>,
    command: seq<string>,
    networkMode: string,
    managementMode: string)

  datatype OwnerRef = OwnerRef(kind: string, controller: Option<bool>)

  datatype Mode = Observe | Enforce

  // ---- Management mode ----

  predicate OwnedByDeployment(owners: seq<OwnerRef>) {
    exists i :: 0 <= i < |owners| && owners[i].kind == "DockerDeployment" && owners[i].controller == Some(true)
  }

  function ModeFor(spec: Spec, owners: seq<OwnerRef>): Mode {
    if spec.managementMode == "Enforce" then Enforce
    else if spec.managementMode == "Observe" then Observe
    else if OwnedByDeployment(owners) then Enforce
    else Observe
  }

  // ---- Resource limits ----

  const KIB := 1024
  const MIB := 1024 * 1024
  const GIB := 1024 * 1024 * 1024

  function ParseMemory(text: string): int64 {
    var s := TrimSpace(ToLower(text));
    if s == "" then 0
    else
      var last := s[|s| - 1];
      var unit := if last == 'g' then GIB else if last == 'm' then MIB else if last == 'k' then KIB else 1;
      var n := ParseInt(if unit == 1 then s else s[..|s| - 1]);
      if n.None? then 0 else Int64(n.value * unit)
  }

  function FormatMemory(memory: int64): string {
    if memory > 0 && memory % MIB == 0 then FormatInt(memory / MIB) + "m" else FormatInt(memory)
  }

  /** buildDockerResources: the limits in billionths of a core and in bytes. */
  function DockerResources(f: Floats, r: Option<Resources>): (int64, int64) {
    if r.None? then (0, 0)
    else
      (if r.value.cpuLimit == "" then 0 else ParseCPU(f, r.value.cpuLimit),
       if r.value.memoryLimit == "" then 0 else ParseMemory(r.value.memoryLimit))
  }

  // ---- Ports ----

  function ParsePortNumber(s: string): Option<nat> {
    if s == "" || !AllDigits(s) || NatValue(s) > 65535 then None else Some(NatValue(s))
  }

  /** nat.NewPort: a number or a range of them; the empty text stands for port 0. */
  function NewPort(proto: string, s: string): Option<PortKey> {
    if s == "" then Some(PortKey(0, 0, proto))
    else
      var range := Cut(s, '-');
      if range.None? then
        var n := ParsePortNumber(s);
        if n.None? then None else Some(PortKey(n.value, n.value, proto))
      else
        var upper := Cut(range.value.1, '-');
        var first := ParsePortNumber(range.value.0);
        var last := ParsePortNumber(if upper.None? then range.value.1 else upper.value.0);
        if first.None? || last.None? || last.value < first.value then None
        else Some(PortKey(first.value, last.value, proto))
  }

  type PortMap = map<PortKey, seq<PortBinding>>

  function AddBinding(m: PortMap, key: PortKey, b: PortBinding): PortMap {
    m[key := (if key in m then m[key] else []) + [b]]
  }

  /** One entry of spec.ports added to the bindings. */
  function ParsePort(m: PortMap, p: string): Option<PortMap> {
    var parts := Cut(p, ':');
    if parts.None? then None
    else
      var key := NewPort("tcp", parts.value.1);
      if key.None? then None else Some(AddBinding(m, key.value, PortBinding("0.0.0.0", parts.value.0)))
  }

  function ParsePortsFrom(m: PortMap, ports: seq<string>): Option<PortMap>
    decreases |ports|
  {
    if ports == [] then Some(m)
    else
      var m' := ParsePort(m, ports[0]);
      if m'.None? then None else ParsePortsFrom(m'.value, ports[1..])
  }

  /** parsePorts: the exposed ports are exactly the keys of the bindings. */
  function ParsePorts(ports: seq<string>): Option<PortMap> {
    ParsePortsFrom(map[], ports)
  }

  method ParsePortsLoop(ports: seq<string>) returns (ok: bool, exposed: set<PortKey>, bindings: PortMap)
    ensures ok <==> ParsePorts(ports).Some?
    ensures ok ==> Some(bindings) == ParsePorts(ports) && exposed == bindings.Keys
  {
    ok, exposed, bindings := true, {}, map[];
    for i := 0 to |ports|
      invariant ParsePortsFrom(bindings, ports[i..]) == ParsePorts(ports)
      invariant exposed == bindings.Keys
    {
      var rest := ports[i..];
      assert rest[1..] == ports[i + 1..];
      var parts := Cut(ports[i], ':');
      if parts.None? {
        return false, {}, map[];
      }
      var key := NewPort("tcp", parts.value.1);
      if key.None? {
        return false, {}, map[];
      }
      exposed := exposed + {key.value};
      bindings := AddBinding(bindings, key.value, PortBinding("0.0.0.0", parts.value.0));
    }
  }

  // ---- Drift from the spec ----

  predicate MissesEnv(have: seq<string>, want: seq<string>) {
    exists i :: 0 <= i < |want| && want[i] !in have
  }

  /** needsRecreate on the Config and HostConfig of an inspect reply, either of which may be absent. */
  predicate NeedsRecreate(f: Floats, config: Option<Config>, host: Option<HostConfig>, spec: Spec) {
    config.Some? &&
    (|| config.value.image != spec.image
     || (|spec.command| > 0 && config.value.cmd != spec.command)
     || MissesEnv(config.value.env, spec.env)
     || (spec.restartPolicy != "" && host.Some? && !EqualFold(host.value.restartPolicy, spec.restartPolicy))
     || (spec.resources.Some? && host.Some? &&
         DockerResources(f, spec.resources) != (host.value.nanoCPUs, host.value.memory)))
  }

  method NeedsRecreateCheck(f: Floats, config: Option<Config>, host: Option<HostConfig>, spec: Spec) returns (r: bool)
    ensures r == NeedsRecreate(f, config, host, spec)
  {
    if config.None? {
      return false;
    }
    if config.value.image != spec.image {
      return true;
    }
    if |spec.command| > 0 && config.value.cmd != spec.command {
      return true;
    }
    for i := 0 to |spec.env|
      invariant forall k :: 0 <= k < i ==> spec.env[k] in config.value.env
    {
      if spec.env[i] !in config.value.env {
        return true;
      }
    }
    if spec.restartPolicy != "" && host.Some? && !EqualFold(host.value.restartPolicy, spec.restartPolicy) {
      return true;
    }
    if spec.resources.Some? && host.Some? {
      var desired := DockerResources(f, spec.resources);
      if desired.0 != host.value.nanoCPUs {
        return true;
      }
      if desired.1 != host.value.memory {
        return true;
      }
    }
    return false;
  }

  method OwnedByDeploymentLoop(owners: seq<OwnerRef>) returns (r: bool)
    ensures r == OwnedByDeployment(owners)
    ensures r <==> exists i :: 0 <= i < |owners| && owners[i] == OwnerRef("DockerDeployment", Some(true))
  {
    for i := 0 to |owners|
      invariant forall k :: 0 <= k < i ==> !(owners[k].kind == "DockerDeployment" && owners[k].controller == Some(true))
    {
      if owners[i].kind == "DockerDeployment" && owners[i].controller == Some(true) {
        return true;
      }
    }
    return false;
  }

  /** managementModeFor. */
  method ManagementMode(spec: Spec, owners: seq<OwnerRef>) returns (mode: Mode)
    ensures mode == ModeFor(spec, owners)
    ensures mode == Enforce <==>
      || spec.managementMode == "Enforce"
      || (&& spec.managementMode != "Observe"
          && exists i :: 0 <= i < |owners| && owners[i] == OwnerRef("DockerDeployment", Some(true)))
  {
    if spec.managementMode == "Enforce" {
      return Enforce;
    }
    if spec.managementMode == "Observe" {
      return Observe;
    }
    var owned := OwnedByDeploymentLoop(owners);
    if owned {
      return Enforce;
    }
    return Observe;
  }

  // ---- The request of create ----

  function Bind(v: VolumeMount): string {
    v.hostPath + ":" + v.containerPath + (if v.readOnly then ":ro" else "")
  }

  function Binds(mounts: seq<VolumeMount>): seq<string> {
    if mounts == [] then [] else [Bind(mounts[0])] + Binds(mounts[1..])
  }

  function RequestedConfig(spec: Spec, env: seq<string>, bindings: PortMap): Config {
    Config(spec.image, spec.command, env, bindings.Keys)
  }

  function RequestedHost(f: Floats, spec: Spec, bindings: PortMap): HostConfig {
    var limits := DockerResources(f, spec.resources);
    HostConfig(ToLower(if spec.restartPolicy == "" then "always" else spec.restartPolicy),
               limits.0, limits.1, spec.networkMode, bindings, Binds(spec.volumeMounts))
  }
}
