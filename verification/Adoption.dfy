/** The spec that adoption derives from a running container
    (internal/controller/dockercontainer_adopt.go). */
module Adoption {
  import opened Go
  import opened Text
  import opened Floats
  import opened DockerEngine
  import opened ContainerSpecs

  /** The parts of an inspect reply that adoption reads. A nil Config makes the source panic. */
  datatype InspectReply = InspectReply(name: string, config: Config, host: Option<HostConfig>, ports: Option<PortMap>)

  // ---- Ports ----

  /** nat.Port.Port(): the number without the protocol. */
  function PortText(key: PortKey): string {
    if key.first == key.last then FormatInt(key.first) else FormatInt(key.first) + "-" + FormatInt(key.last)
  }

  function Mapping(hostPort: string, key: PortKey): string {
    hostPort + ":" + PortText(key)
  }

  function MappingsOf(key: PortKey, bindings: seq<PortBinding>): seq<string> {
    if bindings == [] then []
    else
      var rest := MappingsOf(key, bindings[1..]);
      if bindings[0].hostPort == "" then rest else [Mapping(bindings[0].hostPort, key)] + rest
  }

  /** order is one of the orders in which a Go map may be iterated. */
  ghost predicate IterationOrder(order: seq<PortKey>, m: PortMap) {
    multiset(order) == multiset(m.Keys)
  }

  function MappingsAt(key: PortKey, m: PortMap): seq<string> {
    if key in m then MappingsOf(key, m[key]) else []
  }

  function MappingsIn(order: seq<PortKey>, m: PortMap): seq<string> {
    if order == [] then []
    else MappingsAt(order[0], m) + MappingsIn(order[1..], m)
  }

  function CollectPortMappings(order: seq<PortKey>, m: PortMap): seq<string> {
    Sort(MappingsIn(order, m))
  }

  lemma {:induction false} MappingsOfSnoc(key: PortKey, bindings: seq<PortBinding>, b: PortBinding)
    ensures MappingsOf(key, bindings + [b]) ==
            MappingsOf(key, bindings) + (if b.hostPort == "" then [] else [Mapping(b.hostPort, key)])
  {
    if bindings == [] {
      assert bindings + [b] == [b];
      assert [b][1..] == [];
    } else {
      assert (bindings + [b])[1..] == bindings[1..] + [b];
      MappingsOfSnoc(key, bindings[1..], b);
    }
  }

  lemma AppendAssociates(a: seq<string>, b: seq<string>, c: seq<string>)
    ensures a + (b + c) == (a + b) + c
  {
  }

  lemma {:induction false} MappingsInSnoc(order: seq<PortKey>, key: PortKey, m: PortMap)
    ensures MappingsIn(order + [key], m) == MappingsIn(order, m) + MappingsAt(key, m)
  {
    if order == [] {
      assert order + [key] == [key];
      assert [key][1..] == [];
    } else {
      assert (order + [key])[1..] == order[1..] + [key];
      MappingsInSnoc(order[1..], key, m);
      AppendAssociates(MappingsAt(order[0], m), MappingsIn(order[1..], m), MappingsAt(key, m));
    }
  }

  /** The inner loop of collectPortMappings. */
  method AppendMappings(before: seq<string>, key: PortKey, bindings: seq<PortBinding>) returns (mappings: seq<string>)
    ensures mappings == before + MappingsOf(key, bindings)
  {
    mappings := before;
    for k := 0 to |bindings|
      invariant mappings == before + MappingsOf(key, bindings[..k])
    {
      MappingsOfSnoc(key, bindings[..k], bindings[k]);
      assert bindings[..k + 1] == bindings[..k] + [bindings[k]];
      if bindings[k].hostPort == "" {
        continue;
      }
      mappings := mappings + [Mapping(bindings[k].hostPort, key)];
    }
    assert bindings[..|bindings|] == bindings;
  }

  /** collectPortMappings, iterating the map in the given order; what is not in the map is not iterated over. */
  method CollectPortMappingsLoop(order: seq<PortKey>, m: PortMap) returns (mappings: seq<string>)
    ensures mappings == CollectPortMappings(order, m)
  {
    mappings := [];
    for i := 0 to |order|
      invariant mappings == MappingsIn(order[..i], m)
    {
      MappingsInSnoc(order[..i], order[i], m);
      assert order[..i + 1] == order[..i] + [order[i]];
      if order[i] in m {
        mappings := AppendMappings(mappings, order[i], m[order[i]]);
      }
    }
    assert order[..|order|] == order;
    mappings := Sort(mappings);
  }

  // ---- The snapshot ----

  function TrimSlash(name: string): string {
    if name != "" && name[0] == '/' then name[1..] else name
  }

  function SnapshotResources(f: Floats, host: Option<HostConfig>): Option<Resources> {
    if host.None? || (host.value.nanoCPUs <= 0 && host.value.memory <= 0) then None
    else
      Some(Resources(if host.value.nanoCPUs > 0 then FormatCPU(f, host.value.nanoCPUs) else "",
                     if host.value.memory > 0 then FormatMemory(host.value.memory) else ""))
  }

  function SnapshotName(listed: string, inspect: InspectReply): string {
    TrimSlash(if inspect.name != "" then inspect.name else listed)
  }

  /** The Spec of runtimeSnapshotFromInspect. */
  function SnapshotSpec(f: Floats, hostName: string, listed: string, inspect: InspectReply, order: seq<PortKey>): Spec {
    Spec(
      inspect.config.image, "", SnapshotName(listed, inspect), hostName,
      if inspect.host.Some? then inspect.host.value.restartPolicy else "",
      if inspect.ports.Some? then CollectPortMappings(order, inspect.ports.value) else [],
      Sort(inspect.config.env), [], [], [],
      SnapshotResources(f, inspect.host), inspect.config.cmd, "", "Observe")
  }

  /** runtimeSnapshotFromInspect. */
  method RuntimeSnapshot(f: Floats, hostName: string, listed: string, inspect: InspectReply, order: seq<PortKey>)
    returns (spec: Spec)
    ensures spec == SnapshotSpec(f, hostName, listed, inspect, order)
  {
    var name := TrimSlash(listed);
    if inspect.name != "" {
      name := TrimSlash(inspect.name);
    }
    spec := Spec(inspect.config.image, "", name, hostName, "", [], [], [], [], [], None, [], "", "Observe");
    if inspect.host.Some? {
      var host := inspect.host.value;
      spec := spec.(restartPolicy := host.restartPolicy);
      if host.nanoCPUs > 0 || host.memory > 0 {
        var resources := Resources("", "");
        if host.nanoCPUs > 0 {
          resources := resources.(cpuLimit := FormatCPU(f, host.nanoCPUs));
        }
        if host.memory > 0 {
          resources := resources.(memoryLimit := FormatMemory(host.memory));
        }
        spec := spec.(resources := Some(resources));
      }
    }
    if |inspect.config.cmd| > 0 {
      spec := spec.(command := inspect.config.cmd);
    }
    if |inspect.config.env| > 0 {
      spec := spec.(env := Sort(inspect.config.env));
    }
    if inspect.ports.Some? {
      var mappings := CollectPortMappingsLoop(order, inspect.ports.value);
      spec := spec.(ports := mappings);
    }
  }

  // ---- Object names ----

  predicate NameChar(c: char) {
    'a' <= c <= 'z' || '0' <= c <= '9'
  }

  /** The builder of adoptedObjectName after the characters of s. */
  function Dashed(s: string): string {
    if s == [] then []
    else
      var b := Dashed(s[..|s| - 1]);
      var c := s[|s| - 1];
      if NameChar(c) then b + [c]
      else if b != [] && b[|b| - 1] == '-' then b
      else b + ['-']
  }

  function TrimDashes(s: string): string
    decreases |s|
  {
    if s != [] && s[0] == '-' then TrimDashes(s[1..])
    else if s != [] && s[|s| - 1] == '-' then TrimDashes(s[..|s| - 1])
    else s
  }

  function AdoptedObjectName(containerName: string): string {
    var name := TrimDashes(Dashed(ToLower(containerName)));
    if name == "" then "adopted-container" else name
  }

  method AdoptedObjectNameLoop(containerName: string) returns (r: string)
    ensures r == AdoptedObjectName(containerName)
  {
    var name := ToLower(containerName);
    var b: string := "";
    var lastDash := false;
    for i := 0 to |name|
      invariant b == Dashed(name[..i])
      invariant lastDash <==> b != [] && b[|b| - 1] == '-'
    {
      assert name[..i + 1][..i] == name[..i];
      if NameChar(name[i]) {
        b := b + [name[i]];
        lastDash := false;
      } else if !lastDash {
        b := b + ['-'];
        lastDash := true;
      }
    }
    assert name[..|name|] == name;
    r := TrimDashes(b);
    if r == "" {
      r := "adopted-container";
    }
  }
}
