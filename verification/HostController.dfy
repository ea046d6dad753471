/** The discovery pass of the DockerHost controller as the program it is
    (internal/controller/dockerhost_controller.go). */
module HostController {
  import opened Go
  import opened DockerEngine
  import opened ContainerSpecs
  import opened Adoption
  import opened ContainerModel
  import opened ContainerController
  import opened Discovery

  method FirstClaimLoop(objects: map<string, Stored>, keys: seq<string>, host: string, name: string)
    returns (claim: Option<string>)
    ensures claim == FirstClaim(objects, keys, host, name)
  {
    for i := 0 to |keys|
      invariant FirstClaim(objects, keys, host, name) == FirstClaim(objects, keys[i..], host, name)
    {
      assert keys[i..][1..] == keys[i + 1..];
      if keys[i] in objects && Claims(objects[keys[i]], host, name) {
        return Some(keys[i]);
      }
    }
    return None;
  }

  class DockerHostReconciler {
    const cluster: Cluster
    const lib: Lib
    const host: string

    constructor (cluster: Cluster, lib: Lib, host: string)
      ensures this.cluster == cluster && this.lib == lib && this.host == host
    {
      this.cluster, this.lib, this.host := cluster, lib, host;
    }

    method RefreshClaim(existing: DockerContainer, id: nat, hash: string) returns (ok: bool)
      requires existing.key in cluster.world.objects && existing.View() == cluster.world.objects[existing.key]
      modifies cluster, existing
      ensures (cluster.world, ok) == Refresh(old(cluster.world), existing.key, host, id, hash)
    {
      var changed := MarkAdopted(existing, id);
      if changed {
        ok := cluster.UpdateObject(existing);
        if !ok {
          return;
        }
      }
      if !existing.adopted || existing.specHash != hash {
        existing.adopted := true;
        existing.specHash := hash;
        ok := cluster.UpdateStatus(existing);
        return;
      }
      ok := true;
    }

    /** The label and the annotation of an adopted resource. */
    method MarkAdopted(existing: DockerContainer, id: nat) returns (changed: bool)
      modifies existing
      ensures existing.View() == Marked(old(existing.View()), host, id)
      ensures changed <==> existing.View() != old(existing.View())
    {
      ghost var was := existing.View();
      changed := false;
      if MANAGED_BY !in existing.labels || existing.labels[MANAGED_BY] != MANAGED_BY_ADOPT {
        existing.labels := existing.labels[MANAGED_BY := MANAGED_BY_ADOPT];
        changed := true;
      }
      var adoptedFrom := AdoptedFrom(host, id);
      if ADOPTED_FROM !in existing.annotations || existing.annotations[ADOPTED_FROM] != adoptedFrom {
        existing.annotations := existing.annotations[ADOPTED_FROM := adoptedFrom];
        changed := true;
      }
      assert was.labels[MANAGED_BY := MANAGED_BY_ADOPT] == existing.labels;
      assert was.annotations[ADOPTED_FROM := adoptedFrom] == existing.annotations;
    }

    method UpsertAdoptedContainer(id: nat, spec: Spec, orders: Orders, keepsStatus: bool) returns (ok: bool)
      modifies cluster
      ensures (cluster.world, ok) == Upsert(lib, host, old(cluster.world), id, spec, orders, keepsStatus)
    {
      ok := cluster.Lookup();
      if !ok {
        return;
      }
      var w := cluster.world;
      var claim := FirstClaimLoop(w.objects, orders.objects(|w.tape|, w.objects.Keys), host, spec.containerName);
      if claim.Some? {
        if claim.value in w.objects {
          var existing := new DockerContainer(claim.value, w.objects[claim.value]);
          ok := RefreshClaim(existing, id, lib.hash(spec));
        } else {
          ok := false;
        }
        return;
      }
      var name := AdoptedObjectNameLoop(spec.containerName);
      ok := cluster.Create(name, Adopted(lib, host, id, spec), keepsStatus);
    }

    method DiscoverAdoptableContainers(orders: Orders, keepsStatus: bool) returns (ok: bool)
      modifies cluster
      ensures (cluster.world, ok) == Discover(lib, host, old(cluster.world), orders, keepsStatus)
    {
      ok := cluster.Lookup();
      if !ok {
        return;
      }
      var names := orders.containers(cluster.world.engine.containers.Keys);
      for i := 0 to |names|
        invariant Discover(lib, host, old(cluster.world), orders, keepsStatus) ==
                  DiscoverFrom(lib, host, cluster.world, names[i..], orders, keepsStatus)
      {
        assert names[i..][1..] == names[i + 1..];
        var name := names[i];
        if name !in cluster.world.engine.containers || !Adoptable(cluster.world.engine.containers[name]) {
          continue;
        }
        var id := cluster.world.engine.containers[name].id;
        var c, err := cluster.ContainerInspect(ById(name, id));
        if err != Ok {
          return false;
        }
        var order := orders.ports(c.value.host.bindings);
        var spec := RuntimeSnapshot(lib.floats, host, "/" + name, InspectOf(name, c.value), order);
        ok := UpsertAdoptedContainer(id, spec, orders, keepsStatus);
        if !ok {
          return;
        }
      }
      ok := true;
    }
  }
}
