/** The discovery pass of the DockerHost controller (internal/controller/dockerhost_controller.go):
    every container with the adopt label gets a DockerContainer that observes it. */
module Discovery {
  import opened Go
  import opened Text
  import opened DockerEngine
  import opened ContainerSpecs
  import opened Adoption
  import opened ContainerModel

  const ADOPT_LABEL := "kdop.io/adopt"
  const ADOPT_VALUE := "true"
  const ADOPTED_FROM := "kdop.kdop.io.vn/adopted-from"
  const MANAGED_BY := "kdop.kdop.io.vn/managed-by"
  const MANAGED_BY_ADOPT := "adopt"

  /** The orders in which containers, objects and the entries of a port map happen to be listed. Lists
      of objects may come in another order each time: the number tells the calls of a pass apart. */
  datatype Orders = Orders(
    containers: set<string> -> seq<string>,
    objects: (nat, set<string>) -> seq<string>,
    ports: PortMap -> seq<PortKey>)

  ghost predicate Distinct(names: seq<string>) {
    forall i, k :: 0 <= i < k < |names| ==> names[i] != names[k]
  }

  /** Everything is listed, and once. */
  ghost predicate Lists(names: seq<string>, s: set<string>) {
    Distinct(names) && forall n :: n in names <==> n in s
  }

  ghost predicate Fair(o: Orders) {
    && (forall s :: Lists(o.containers(s), s))
    && (forall n, s :: Lists(o.objects(n, s), s))
    && (forall m :: IterationOrder(o.ports(m), m))
  }

  /** The object claims the container of that name on that host. */
  predicate Claims(claimant: Stored, host: string, name: string) {
    claimant.spec.dockerHostRef == host && claimant.spec.containerName == name
  }

  function FirstClaim(objects: map<string, Stored>, keys: seq<string>, host: string, name: string): Option<string> {
    if keys == [] then None
    else if keys[0] in objects && Claims(objects[keys[0]], host, name) then Some(keys[0])
    else FirstClaim(objects, keys[1..], host, name)
  }

  function AdoptedFrom(host: string, id: nat): string {
    host + "/" + FormatInt(id)
  }

  function Marked(claimant: Stored, host: string, id: nat): Stored {
    claimant.(labels := claimant.labels[MANAGED_BY := MANAGED_BY_ADOPT],
             annotations := claimant.annotations[ADOPTED_FROM := AdoptedFrom(host, id)])
  }

  predicate UpToDate(s: Status, hash: string) {
    s.adopted && s.specHash == hash
  }

  function Refresh(w: World, key: string, host: string, id: nat, hash: string): (World, bool) {
    if key !in w.objects then (w, false)
    else
      var marked := Marked(w.objects[key], host, id);
      var (w1, ok) := if marked != w.objects[key] then Put(w, key, marked) else (w, true);
      if !ok then (w1, false)
      else if !UpToDate(marked.status, hash) then PutStatus(w1, key, marked.status.(adopted := true, specHash := hash))
      else (w1, true)
  }

  function Adopted(lib: Lib, host: string, id: nat, spec: Spec): Stored {
    Stored(spec, [], map[MANAGED_BY := MANAGED_BY_ADOPT], map[ADOPTED_FROM := AdoptedFrom(host, id)], {}, false,
           EMPTY_STATUS.(adopted := true, specHash := lib.hash(spec)))
  }

  function Upsert(
    lib: Lib, host: string, w: World, id: nat, spec: Spec, orders: Orders, keepsStatus: bool): (World, bool)
  {
    var (w1, listed) := Read(w);
    if !listed then (w1, false)
    else
      var claim := FirstClaim(w1.objects, orders.objects(|w1.tape|, w1.objects.Keys), host, spec.containerName);
      if claim.Some? then Refresh(w1, claim.value, host, id, lib.hash(spec))
      else CreateObject(w1, AdoptedObjectName(spec.containerName), Adopted(lib, host, id, spec), keepsStatus)
  }

  predicate Adoptable(c: Container) {
    ADOPT_LABEL in c.labels && c.labels[ADOPT_LABEL] == ADOPT_VALUE
  }

  function SpecOf(lib: Lib, host: string, name: string, c: Container, orders: Orders): Spec {
    SnapshotSpec(lib.floats, host, "/" + name, InspectOf(name, c), orders.ports(c.host.bindings))
  }

  function DiscoverFrom(
    lib: Lib, host: string, w: World, names: seq<string>, orders: Orders, keepsStatus: bool): (World, bool)
    decreases |names|
  {
    if names == [] then (w, true)
    else if names[0] !in w.engine.containers || !Adoptable(w.engine.containers[names[0]]) then
      DiscoverFrom(lib, host, w, names[1..], orders, keepsStatus)
    else
      var id := w.engine.containers[names[0]].id;
      var (w1, c, err) := InspectContainer(w, ById(names[0], id));
      if err != Ok then (w1, false)
      else
        var (w2, ok) := Upsert(lib, host, w1, id, SpecOf(lib, host, names[0], c.value, orders), orders, keepsStatus);
        if !ok then (w2, false) else DiscoverFrom(lib, host, w2, names[1..], orders, keepsStatus)
  }

  function Discover(lib: Lib, host: string, w: World, orders: Orders, keepsStatus: bool): (World, bool) {
    var (w1, listed) := Read(w);
    if !listed then (w1, false)
    else DiscoverFrom(lib, host, w1, orders.containers(w1.engine.containers.Keys), orders, keepsStatus)
  }
}
