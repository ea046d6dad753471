/** One reconcile pass of the DockerContainer controller as a function of the world it runs in
    (internal/controller/dockercontainer_controller.go).

    A pass runs undisturbed; how each of its calls ends is read from a tape, and every call after
    the end of the tape is refused, as if the controller had crashed there. */
module ContainerModel {
  import opened Go
  import opened Text
  import opened Floats
  import opened DockerEngine
  import opened ContainerSpecs
  import opened Adoption

  const FINALIZER := "kdop.kdop.io.vn/finalizer"

  datatype StatusState = NoState | Missing | Runtime(state: State)

  datatype Status = Status(id: Option<nat>, state: StatusState, adopted: bool, specHash: string)

  const EMPTY_STATUS := Status(None, NoState, false, "")

  /** A stored DockerContainer, without the metadata that no controller here looks at. */
  datatype Stored = Stored(
    spec: Spec,
    owners: seq<OwnerRef>,
    labels: map<string, string>,
    annotations: map<string, string>,
    finalizers: set<string>,
    deleting: bool,
    status: Status)

  /** A call that can change a Docker host; it is recorded when it is issued, however it ends. */
  datatype Op =
    | OpCreate(name: string)
    | OpStart(name: string)
    | OpStop(name: string)
    | OpRemove(name: string)
    | OpCopy(name: string)

  /** One Docker host and the objects of one namespace; secrets maps the name and key of a Secret, and
      writes counts the write requests to the API server. */
  datatype World = World(
    objects: map<string, Stored>,
    engine: Engine,
    secrets: map<(string, string), string>,
    tape: seq<Outcome>,
    ops: seq<Op>,
    writes: nat)

  /** What the model takes from libraries: floating point and the hash of a spec. */
  datatype Lib = Lib(floats: Floats, hash: Spec -> string)

  function Await(w: World): (World, Outcome) {
    if w.tape == [] then (w, Refused) else (w.(tape := w.tape[1..]), w.tape[0])
  }

  // ---- Calls ----

  /** Reads and lookups: they change nothing. */
  function Read(w: World): (World, bool) {
    var (w1, o) := Await(w);
    (w1, o == Done)
  }

  function Issue(w: World, op: Op, engine: Engine): World {
    w.(ops := w.ops + [op], engine := engine)
  }

  function InspectContainer(w: World, ref: Ref): (World, Option<Container>, Err) {
    var (w1, o) := Await(w);
    var (c, err) := DockerEngine.Inspect(w1.engine, ref, o);
    (w1, c, err)
  }

  function CreateContainer(w: World, name: string, config: Config, host: HostConfig): (World, Err, nat) {
    var (w1, o) := Await(w);
    var (engine, err) := DockerEngine.Create(w1.engine, name, config, host, ByOperator, o);
    (Issue(w1, OpCreate(name), engine), err, w1.engine.nextId)
  }

  function StartContainer(w: World, ref: Ref): (World, Err) {
    var (w1, o) := Await(w);
    var (engine, err) := DockerEngine.Start(w1.engine, ref, o);
    (Issue(w1, OpStart(ref.name), engine), err)
  }

  function StopContainer(w: World, ref: Ref): (World, Err) {
    var (w1, o) := Await(w);
    var (engine, err) := DockerEngine.Stop(w1.engine, ref, o);
    (Issue(w1, OpStop(ref.name), engine), err)
  }

  function RemoveContainer(w: World, ref: Ref): (World, Err) {
    var (w1, o) := Await(w);
    var (engine, err) := DockerEngine.Remove(w1.engine, ref, o);
    (Issue(w1, OpRemove(ref.name), engine), err)
  }

  /** Copies the files of one Secret into the container. */
  function Upload(w: World, name: string, id: nat, secret: string): (World, bool) {
    var (w1, o) := Await(w);
    if !Resolves(w1.engine, ById(name, id)) then (Issue(w1, OpCopy(name), w1.engine), false)
    else
      var c := w1.engine.containers[name];
      var copied := w1.engine.(containers := w1.engine.containers[name := c.(uploads := c.uploads + [secret])]);
      (Issue(w1, OpCopy(name), if o == Refused then w1.engine else copied), o == Done)
  }

  function AwaitWrite(w: World): (World, Outcome) {
    var (w1, o) := Await(w);
    (w1.(writes := w1.writes + 1), o)
  }

  /** A write of a stored object; one with a deletion mark goes with its last finalizer. */
  function Put(w: World, key: string, put: Stored): (World, bool) {
    var (w1, o) := AwaitWrite(w);
    if o == Refused || key !in w1.objects then (w1, false)
    else if put.deleting && put.finalizers == {} then (w1.(objects := w1.objects - {key}), o == Done)
    else (w1.(objects := w1.objects[key := put]), o == Done)
  }

  function PutStatus(w: World, key: string, status: Status): (World, bool) {
    var (w1, o) := AwaitWrite(w);
    if o == Refused || key !in w1.objects then (w1, false)
    else (w1.(objects := w1.objects[key := w1.objects[key].(status := status)]), o == Done)
  }

  /** keepsStatus: whether the server stores the status of a created object. With the status
      subresource enabled it does not. */
  function CreateObject(w: World, key: string, put: Stored, keepsStatus: bool): (World, bool) {
    var (w1, o) := AwaitWrite(w);
    if o == Refused || key in w1.objects then (w1, false)
    else (w1.(objects := w1.objects[key := if keepsStatus then put else put.(status := EMPTY_STATUS)]), o == Done)
  }

  // ---- create ----

  /** resolveEnv: the literal entries, then the variables in order, each secret looked up. */
  function ResolveFrom(w: World, env: seq<string>, vars: seq<EnvVar>): (World, Option<seq<string>>)
    decreases |vars|
  {
    if vars == [] then (w, Some(env))
    else
      var v := vars[0];
      if v.secretRef.None? then ResolveFrom(w, env + [v.name + "=" + v.value], vars[1..])
      else
        var (w1, ok) := Read(w);
        if !ok || v.secretRef.value !in w1.secrets then (w1, None)
        else ResolveFrom(w1, env + [v.name + "=" + w1.secrets[v.secretRef.value]], vars[1..])
  }

  function UploadAll(w: World, name: string, id: nat, secrets: seq<string>): (World, bool)
    decreases |secrets|
  {
    if secrets == [] then (w, true)
    else
      var (w1, ok) := Upload(w, name, id, secrets[0]);
      if !ok then (w1, false) else UploadAll(w1, name, id, secrets[1..])
  }

  /** The pull secret, then the image: pulled only if it is not there. */
  function EnsureImage(w: World, spec: Spec): (World, bool) {
    var (w1, auth) := if spec.imagePullSecret == "" then (w, true) else Read(w);
    if !auth then (w1, false)
    else
      var (w2, present) := Read(w1);
      if present then (w2, true) else Read(w2)
  }

  /** What follows a successful ContainerCreate. */
  function Bring(w: World, key: string, spec: Spec, name: string, id: nat, status: Status): (World, bool) {
    var (w1, uploaded) := UploadAll(w, name, id, spec.secretVolumes);
    if !uploaded then (w1, false)
    else
      var (w2, started) := StartContainer(w1, ById(name, id));
      if started != Ok then (w2, false)
      else
        var (w3, _, _) := InspectContainer(w2, ById(name, id));
        PutStatus(w3, key, status.(id := Some(id), state := Runtime(Running)))
  }

  function Provision(lib: Lib, w: World, key: string, cr: Stored, name: string): (World, bool) {
    var (w1, image) := EnsureImage(w, cr.spec);
    var bindings := ParsePorts(cr.spec.ports);
    if !image || bindings.None? then (w1, false)
    else
      var (w2, env) := ResolveFrom(w1, cr.spec.env, cr.spec.envVars);
      if env.None? then (w2, false)
      else
        var (w3, err, id) := CreateContainer(w2, name, RequestedConfig(cr.spec, env.value, bindings.value),
                                             RequestedHost(lib.floats, cr.spec, bindings.value));
        if err != Ok then (w3, false) else Bring(w3, key, cr.spec, name, id, cr.status)
  }

  // ---- sync ----

  predicate Outdated(lib: Lib, c: Container, spec: Spec) {
    NeedsRecreate(lib.floats, Some(c.config), Some(c.host), spec)
  }

  function InspectOf(name: string, c: Container): InspectReply {
    InspectReply("/" + name, c.config, Some(c.host), Some(c.host.bindings))
  }

  /** order: how the port map happens to be iterated. */
  function ObserveRuntime(lib: Lib, w: World, key: string, cr: Stored, name: string, match_: Option<Container>,
                          order: seq<PortKey>): (World, bool)
  {
    if match_.None? then
      PutStatus(w, key, Status(None, Missing, true, ""))
    else
      var (w1, c, err) := InspectContainer(w, ById(name, match_.value.id));
      if err != Ok then (w1, false)
      else
        var spec := SnapshotSpec(lib.floats, cr.spec.dockerHostRef, "/" + name, InspectOf(name, c.value), order);
        PutStatus(w1, key, Status(Some(match_.value.id), Runtime(match_.value.state), true, lib.hash(spec)))
  }

  function Replace(lib: Lib, w: World, key: string, cr: Stored, name: string, id: nat): (World, bool) {
    var (w1, _) := StopContainer(w, ById(name, id));
    var (w2, err) := RemoveContainer(w1, ById(name, id));
    if err != Ok then (w2, false) else Provision(lib, w2, key, cr, name)
  }

  function Revive(w: World, key: string, cr: Stored, name: string, c: Container): (World, bool) {
    if c.state == Running then
      PutStatus(w, key, cr.status.(id := Some(c.id), state := Runtime(Running)))
    else
      var (w1, err) := StartContainer(w, ById(name, c.id));
      if err != Ok then (w1, false)
      else PutStatus(w1, key, cr.status.(id := Some(c.id), state := Runtime(Running)))
  }

  function EnforceExisting(
    lib: Lib, w: World, key: string, cr: Stored, name: string, listed: Container): (World, bool)
  {
    var (w1, c, err) := InspectContainer(w, ById(name, listed.id));
    if err != Ok then (w1, false)
    else if Outdated(lib, c.value, cr.spec) then Replace(lib, w1, key, cr, name, listed.id)
    else Revive(w1, key, cr, name, listed)
  }

  function Sync(lib: Lib, w: World, key: string, cr: Stored, name: string, order: seq<PortKey>): (World, bool) {
    var (w1, listed) := Read(w);
    if !listed then (w1, false)
    else
      var match_ := if name in w1.engine.containers then Some(w1.engine.containers[name]) else None;
      if ModeFor(cr.spec, cr.owners) == Observe then ObserveRuntime(lib, w1, key, cr, name, match_, order)
      else if match_.None? then Provision(lib, w1, key, cr, name)
      else EnforceExisting(lib, w1, key, cr, name, match_.value)
  }

  // ---- Reconcile ----

  predicate SkipsRuntimeDeletion(cr: Stored) {
    cr.status.adopted && ModeFor(cr.spec, cr.owners) == Observe
  }

  function TunnelName(name: string, i: nat): string {
    name + "-tunnel-" + FormatInt(i)
  }

  /** The tunnel containers removed along with the container, in order. */
  function TunnelNames(name: string, key: string, from: nat): seq<string>
    decreases 10 - from
  {
    if from >= 10 then [] else [TunnelName(name, from), TunnelName(key, from)] + TunnelNames(name, key, from + 1)
  }

  function RemoveAll(w: World, names: seq<string>): World
    decreases |names|
  {
    if names == [] then w else RemoveAll(RemoveContainer(w, ByName(names[0])).0, names[1..])
  }

  function DeleteExternal(w: World, key: string, cr: Stored, name: string): World {
    if SkipsRuntimeDeletion(cr) then w
    else
      var (w1, err) := RemoveContainer(w, ByName(name));
      if err == Failure then w1 else RemoveAll(w1, TunnelNames(name, key, 0) + [name + "-tunnel"])
  }

  function RuntimeName(key: string, cr: Stored): string {
    if cr.spec.containerName == "" then key else cr.spec.containerName
  }

  function Reconcile(lib: Lib, w: World, key: string, order: seq<PortKey>): (World, bool) {
    var (w1, got) := Read(w);
    if !got then (w1, false)
    else if key !in w1.objects then (w1, true)
    else
      var cr := w1.objects[key];
      var name := RuntimeName(key, cr);
      if cr.deleting then
        if FINALIZER !in cr.finalizers then (w1, true)
        else
          var (w2, client) := Read(w1);
          var w3 := if client then DeleteExternal(w2, key, cr, name) else w2;
          Put(w3, key, cr.(finalizers := cr.finalizers - {FINALIZER}))
      else if FINALIZER !in cr.finalizers then
        Put(w1, key, cr.(finalizers := cr.finalizers + {FINALIZER}))
      else
        var (w2, client) := Read(w1);
        if !client then (w2, false) else Sync(lib, w2, key, cr, name, order)
  }
}
