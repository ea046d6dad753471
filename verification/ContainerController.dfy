/** The DockerContainer controller as the program it is
    (internal/controller/dockercontainer_controller.go). Every method is proved to do to its
    surroundings what the function of the same name in ContainerModel says. */
module ContainerController {
  import opened Go
  import opened DockerEngine
  import opened ContainerSpecs
  import opened Adoption
  import opened ContainerModel

  datatype Summary = Summary(id: nat, names: seq<string>, state: State)

  predicate Shows(s: Summary, name: string, c: Container) {
    s == Summary(c.id, ["/" + name], c.state)
  }

  ghost predicate IsShown(s: Summary, en: Engine) {
    exists n :: n in en.containers && Shows(s, n, en.containers[n])
  }

  ghost predicate Includes(list: seq<Summary>, name: string, c: Container) {
    Summary(c.id, ["/" + name], c.state) in list
  }

  /** The list shows every container, under its name with a slash in front, in some order. */
  ghost predicate Lists(list: seq<Summary>, en: Engine) {
    && (forall i :: 0 <= i < |list| ==> IsShown(list[i], en))
    && (forall n :: n in en.containers ==> Includes(list, n, en.containers[n]))
  }

  method FindContainerByName(list: seq<Summary>, name: string) returns (found: Option<Summary>)
    ensures found.Some? ==> found.value in list && "/" + name in found.value.names
    ensures found.None? ==> forall i :: 0 <= i < |list| ==> "/" + name !in list[i].names
  {
    var want := "/" + name;
    for i := 0 to |list|
      invariant forall k :: 0 <= k < i ==> want !in list[k].names
    {
      if want in list[i].names {
        return Some(list[i]);
      }
    }
    return None;
  }

  /** Whatever the order of the list, the search finds the container of that name. */
  lemma FoundIsNamed(list: seq<Summary>, en: Engine, name: string, found: Option<Summary>)
    requires Lists(list, en)
    requires found.Some? ==> found.value in list && "/" + name in found.value.names
    requires found.None? ==> forall i :: 0 <= i < |list| ==> "/" + name !in list[i].names
    ensures found.Some? <==> name in en.containers
    ensures found.Some? ==> Shows(found.value, name, en.containers[name])
  {
    assert name in en.containers ==> Includes(list, name, en.containers[name]);
    if found.Some? {
      assert IsShown(found.value, en);
      var n :| n in en.containers && Shows(found.value, n, en.containers[n]);
      assert "/" + name == "/" + n;
      assert ("/" + n)[1..] == n && ("/" + name)[1..] == name;
    }
  }

  /** The controller's own copy of a DockerContainer. */
  class DockerContainer {
    const key: string
    const spec: Spec
    const owners: seq<OwnerRef>
    const deleting: bool
    var labels: map<string, string>
    var annotations: map<string, string>
    var finalizers: set<string>
    var id: Option<nat>
    var state: StatusState
    var adopted: bool
    var specHash: string

    function StatusView(): Status
      reads this
    {
      Status(id, state, adopted, specHash)
    }

    function View(): Stored
      reads this
    {
      Stored(spec, owners, labels, annotations, finalizers, deleting, StatusView())
    }

    constructor (key: string, s: Stored)
      ensures this.key == key && View() == s
    {
      this.key := key;
      spec, owners, deleting := s.spec, s.owners, s.deleting;
      labels, annotations, finalizers := s.labels, s.annotations, s.finalizers;
      id, state, adopted, specHash := s.status.id, s.status.state, s.status.adopted, s.status.specHash;
    }
  }

  /** The API server and the Docker host, with the tape that decides how calls end. */
  class Cluster {
    var world: World

    constructor (world: World)
      ensures this.world == world
    {
      this.world := world;
    }

    method Lookup() returns (ok: bool)
      modifies this
      ensures (world, ok) == Read(old(world))
    {
      var (w, r) := Read(world);
      world, ok := w, r;
    }

    method GetObject(key: string) returns (ok: bool, cr: DockerContainer?)
      modifies this
      ensures (world, ok) == Read(old(world))
      ensures ok ==> (cr == null <==> key !in world.objects)
      ensures ok && cr != null ==> fresh(cr) && cr.key == key && cr.View() == world.objects[key]
    {
      ok := Lookup();
      cr := null;
      if ok && key in world.objects {
        cr := new DockerContainer(key, world.objects[key]);
      }
    }

    method UpdateObject(cr: DockerContainer) returns (ok: bool)
      modifies this
      ensures (world, ok) == Put(old(world), cr.key, cr.View())
    {
      var (w, r) := Put(world, cr.key, cr.View());
      world, ok := w, r;
    }

    method UpdateStatus(cr: DockerContainer) returns (ok: bool)
      modifies this
      ensures (world, ok) == PutStatus(old(world), cr.key, cr.StatusView())
    {
      var (w, r) := PutStatus(world, cr.key, cr.StatusView());
      world, ok := w, r;
    }

    method Create(key: string, put: Stored, keepsStatus: bool) returns (ok: bool)
      modifies this
      ensures (world, ok) == CreateObject(old(world), key, put, keepsStatus)
    {
      var (w, r) := CreateObject(world, key, put, keepsStatus);
      world, ok := w, r;
    }

    method ContainerList() returns (ok: bool, list: seq<Summary>)
      modifies this
      ensures (world, ok) == Read(old(world))
      ensures ok ==> Lists(list, world.engine)
    {
      ok := Lookup();
      list := [];
      var left := world.engine.containers.Keys;
      while left != {}
        invariant left <= world.engine.containers.Keys && (world, ok) == Read(old(world))
        invariant forall i :: 0 <= i < |list| ==> IsShown(list[i], world.engine)
        invariant forall n :: n in world.engine.containers && n !in left ==>
                    Includes(list, n, world.engine.containers[n])
      {
        var name :| name in left;
        var c := world.engine.containers[name];
        var summary := Summary(c.id, ["/" + name], c.state);
        assert Shows(summary, name, c);
        list := list + [summary];
        left := left - {name};
      }
    }

    method ContainerInspect(ref: Ref) returns (c: Option<Container>, err: Err)
      modifies this
      ensures (world, c, err) == InspectContainer(old(world), ref)
    {
      var (w, found, e) := InspectContainer(world, ref);
      world, c, err := w, found, e;
    }

    method ContainerCreate(name: string, config: Config, host: HostConfig) returns (err: Err, id: nat)
      modifies this
      ensures (world, err, id) == CreateContainer(old(world), name, config, host)
    {
      var (w, e, n) := CreateContainer(world, name, config, host);
      world, err, id := w, e, n;
    }

    method ContainerStart(ref: Ref) returns (err: Err)
      modifies this
      ensures (world, err) == StartContainer(old(world), ref)
    {
      var (w, e) := StartContainer(world, ref);
      world, err := w, e;
    }

    method ContainerStop(ref: Ref) returns (err: Err)
      modifies this
      ensures (world, err) == StopContainer(old(world), ref)
    {
      var (w, e) := StopContainer(world, ref);
      world, err := w, e;
    }

    method ContainerRemove(ref: Ref) returns (err: Err)
      modifies this
      ensures (world, err) == RemoveContainer(old(world), ref)
    {
      var (w, e) := RemoveContainer(world, ref);
      world, err := w, e;
    }

    method UploadSecret(name: string, id: nat, secret: string) returns (ok: bool)
      modifies this
      ensures (world, ok) == Upload(old(world), name, id, secret)
    {
      var (w, r) := Upload(world, name, id, secret);
      world, ok := w, r;
    }
  }

  class DockerContainerReconciler {
    const cluster: Cluster
    const lib: Lib

    constructor (cluster: Cluster, lib: Lib)
      ensures this.cluster == cluster && this.lib == lib
    {
      this.cluster, this.lib := cluster, lib;
    }

    method ResolveEnv(cr: DockerContainer) returns (resolved: Option<seq<string>>)
      modifies cluster
      ensures (cluster.world, resolved) == ResolveFrom(old(cluster.world), cr.spec.env, cr.spec.envVars)
    {
      var env := cr.spec.env;
      var vars := cr.spec.envVars;
      for i := 0 to |vars|
        invariant ResolveFrom(old(cluster.world), cr.spec.env, vars) == ResolveFrom(cluster.world, env, vars[i..])
      {
        assert vars[i..][1..] == vars[i + 1..];
        var v := vars[i];
        var value := v.value;
        if v.secretRef.Some? {
          var ok := cluster.Lookup();
          if !ok || v.secretRef.value !in cluster.world.secrets {
            return None;
          }
          value := cluster.world.secrets[v.secretRef.value];
        }
        env := env + [v.name + "=" + value];
      }
      return Some(env);
    }

    method WriteStatus(cr: DockerContainer, id: nat, state: State) returns (ok: bool)
      modifies cluster, cr
      ensures (cluster.world, ok) ==
              PutStatus(old(cluster.world), cr.key, old(cr.StatusView()).(id := Some(id), state := Runtime(state)))
    {
      cr.id := Some(id);
      cr.state := Runtime(state);
      ok := cluster.UpdateStatus(cr);
    }

    method UploadSecrets(name: string, id: nat, secrets: seq<string>) returns (ok: bool)
      modifies cluster
      ensures (cluster.world, ok) == UploadAll(old(cluster.world), name, id, secrets)
    {
      for i := 0 to |secrets|
        invariant UploadAll(old(cluster.world), name, id, secrets) == UploadAll(cluster.world, name, id, secrets[i..])
      {
        assert secrets[i..][1..] == secrets[i + 1..];
        ok := cluster.UploadSecret(name, id, secrets[i]);
        if !ok {
          return;
        }
      }
      ok := true;
    }

    method EnsureImagePresent(cr: DockerContainer) returns (ok: bool)
      modifies cluster
      ensures (cluster.world, ok) == EnsureImage(old(cluster.world), cr.spec)
    {
      if cr.spec.imagePullSecret != "" {
        ok := cluster.Lookup();
        if !ok {
          return;
        }
      }
      ok := cluster.Lookup();
      if !ok {
        ok := cluster.Lookup();
      }
    }

    method Create(cr: DockerContainer, name: string) returns (ok: bool)
      modifies cluster, cr
      ensures (cluster.world, ok) == Provision(lib, old(cluster.world), cr.key, old(cr.View()), name)
    {
      ok := EnsureImagePresent(cr);
      if !ok {
        return;
      }
      var parsed, _, bindings := ParsePortsLoop(cr.spec.ports);
      if !parsed {
        return false;
      }
      var env := ResolveEnv(cr);
      if env.None? {
        return false;
      }
      var err, id := cluster.ContainerCreate(name, RequestedConfig(cr.spec, env.value, bindings),
                                             RequestedHost(lib.floats, cr.spec, bindings));
      if err != Ok {
        return false;
      }
      ok := Launch(cr, name, id);
    }

    method Launch(cr: DockerContainer, name: string, id: nat) returns (ok: bool)
      modifies cluster, cr
      ensures (cluster.world, ok) == Bring(old(cluster.world), cr.key, cr.spec, name, id, old(cr.StatusView()))
    {
      ok := UploadSecrets(name, id, cr.spec.secretVolumes);
      if !ok {
        return;
      }
      var err := cluster.ContainerStart(ById(name, id));
      if err != Ok {
        return false;
      }
      var _, _ := cluster.ContainerInspect(ById(name, id));
      ok := WriteStatus(cr, id, Running);
    }

    method Observe(cr: DockerContainer, name: string, match_: Option<Summary>, order: seq<PortKey>) returns (ok: bool)
      requires match_.Some? <==> name in cluster.world.engine.containers
      requires match_.Some? ==> Shows(match_.value, name, cluster.world.engine.containers[name])
      modifies cluster, cr
      ensures (cluster.world, ok) ==
              ObserveRuntime(lib, old(cluster.world), cr.key, old(cr.View()), name,
                             if match_.Some? then Some(old(cluster.world).engine.containers[name]) else None, order)
    {
      if match_.None? {
        cr.id := None;
        cr.state := Missing;
        cr.adopted := true;
        cr.specHash := "";
        ok := cluster.UpdateStatus(cr);
        return;
      }
      var c, err := cluster.ContainerInspect(ById(name, match_.value.id));
      if err != Ok {
        return false;
      }
      var inspect := InspectOf(name, c.value);
      var spec := RuntimeSnapshot(lib.floats, cr.spec.dockerHostRef, match_.value.names[0], inspect, order);
      cr.adopted := true;
      cr.specHash := lib.hash(spec);
      ok := WriteStatus(cr, match_.value.id, match_.value.state);
    }

    method SyncContainer(cr: DockerContainer, name: string, order: seq<PortKey>) returns (ok: bool)
      modifies cluster, cr
      ensures (cluster.world, ok) == Sync(lib, old(cluster.world), cr.key, old(cr.View()), name, order)
    {
      var list;
      ok, list := cluster.ContainerList();
      if !ok {
        return;
      }
      var match_ := FindContainerByName(list, name);
      FoundIsNamed(list, cluster.world.engine, name, match_);
      var mode := ManagementMode(cr.spec, cr.owners);
      if mode == Mode.Observe {
        ok := Observe(cr, name, match_, order);
        return;
      }
      if match_.None? {
        ok := Create(cr, name);
        return;
      }
      ok := Enforce(cr, name, match_.value, cluster.world.engine.containers[name]);
    }

    /** listed: the container the summary shows. */
    method Enforce(cr: DockerContainer, name: string, summary: Summary, ghost listed: Container) returns (ok: bool)
      requires Shows(summary, name, listed)
      modifies cluster, cr
      ensures (cluster.world, ok) == EnforceExisting(lib, old(cluster.world), cr.key, old(cr.View()), name, listed)
    {
      var id := summary.id;
      var c, err := cluster.ContainerInspect(ById(name, id));
      if err != Ok {
        return false;
      }
      var outdated := NeedsRecreateCheck(lib.floats, Some(c.value.config), Some(c.value.host), cr.spec);
      if outdated {
        var _ := cluster.ContainerStop(ById(name, id));
        err := cluster.ContainerRemove(ById(name, id));
        if err != Ok {
          return false;
        }
        ok := Create(cr, name);
        return;
      }
      if summary.state != Running {
        err := cluster.ContainerStart(ById(name, id));
        if err != Ok {
          return false;
        }
      }
      ok := WriteStatus(cr, id, Running);
    }

    method DeleteExternalResources(cr: DockerContainer, name: string)
      modifies cluster
      ensures cluster.world == DeleteExternal(old(cluster.world), cr.key, cr.View(), name)
    {
      if SkipsRuntimeDeletion(cr.View()) {
        return;
      }
      var err := cluster.ContainerRemove(ByName(name));
      if err == Failure {
        return;
      }
      ghost var w1 := cluster.world;
      var legacy := name + "-tunnel";
      for i := 0 to 10
        invariant RemoveAll(w1, TunnelNames(name, cr.key, 0) + [legacy]) ==
                  RemoveAll(cluster.world, TunnelNames(name, cr.key, i) + [legacy])
      {
        ghost var names := TunnelNames(name, cr.key, i) + [legacy];
        assert names[1..][1..] == TunnelNames(name, cr.key, i + 1) + [legacy];
        err := cluster.ContainerRemove(ByName(TunnelName(name, i)));
        err := cluster.ContainerRemove(ByName(TunnelName(cr.key, i)));
      }
      assert TunnelNames(name, cr.key, 10) + [legacy] == [legacy];
      assert [legacy][1..] == [];
      err := cluster.ContainerRemove(ByName(legacy));
    }

    method ReconcileContainer(key: string, order: seq<PortKey>) returns (ok: bool)
      modifies cluster
      ensures (cluster.world, ok) == Reconcile(lib, old(cluster.world), key, order)
    {
      var cr;
      ok, cr := cluster.GetObject(key);
      if !ok || cr == null {
        return;
      }
      var name := RuntimeName(key, cr.View());
      if cr.deleting {
        if FINALIZER in cr.finalizers {
          var client := cluster.Lookup();
          if client {
            DeleteExternalResources(cr, name);
          }
          cr.finalizers := cr.finalizers - {FINALIZER};
          ok := cluster.UpdateObject(cr);
        }
        return;
      }
      if FINALIZER !in cr.finalizers {
        cr.finalizers := cr.finalizers + {FINALIZER};
        ok := cluster.UpdateObject(cr);
        return;
      }
      ok := cluster.Lookup();
      if !ok {
        return;
      }
      ok := SyncContainer(cr, name, order);
    }
  }
}
