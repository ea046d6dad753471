/** The DockerDeployment controller as the program it is: loops that create and delete children, a list
    that is appended to and sorted, a running count (internal/controller/dockerdeployment_controller.go).
    Every method is proved to do what the function of the same name in DeploymentModel says. */
module DeploymentController {
  import opened Go
  import opened DockerEngine
  import opened ContainerSpecs
  import opened DeploymentModel

  /** The API server, with the tape that decides how its calls end. */
  class Cluster {
    const deployment: Deployment
    var world: World

    constructor (deployment: Deployment, world: World)
      ensures this.deployment == deployment && this.world == world
    {
      this.deployment, this.world := deployment, world;
    }

    method GetDeployment() returns (err: Err, got: Option<Stored>)
      modifies this
      ensures (world, err, got) == Get(old(world))
    {
      var (w, e, g) := Get(world);
      world, err, got := w, e, g;
    }

    method ListContainers() returns (err: Err, listing: seq<string>)
      modifies this
      ensures (world, err, listing) == List(old(world))
    {
      var (w, e, l) := List(world);
      world, err, listing := w, e, l;
    }

    /** The random suffix of the next child. */
    function Suffix(): string
      reads this
    {
      Await(world).1.suffix
    }

    /** The server fills in the rest of a new child. */
    method Create(name: string, labels: map<string, string>, spec: Spec) returns (err: Err)
      requires name == ChildName(deployment, Suffix()) && spec == ChildSpec(deployment, Suffix())
      requires labels == deployment.templateLabels
      modifies this
      ensures (world, err) == CreateChild(deployment, old(world))
    {
      var (w, call) := Await(world);
      world := w;
      if call.outcome == Refused || name in w.objects {
        return Failure;
      }
      var child := Child(w.nextUid, w.clock, true, labels, spec, false, false, false);
      world := Put(w, name, child).(nextUid := w.nextUid + 1, log := w.log.(creates := w.log.creates + 1));
      err := Seen(call.outcome, Ok);
    }

    method Delete(name: string) returns (err: Err)
      modifies this
      ensures (world, err) == DeleteChild(old(world), name)
    {
      var (w, e) := DeleteChild(world, name);
      world, err := w, e;
    }

    method UpdateStatus(copy: Stored, available: int32) returns (result: Result)
      modifies this
      ensures (world, result) == Report(old(world), copy, available)
    {
      var (w, r) := Report(world, copy, available);
      world, result := w, r;
    }
  }

  /** The container a child is made from: template first, then the name and the mode filled in. */
  method ConstructContainer(d: Deployment, suffix: string)
    returns (name: string, labels: map<string, string>, spec: Spec)
    ensures name == ChildName(d, suffix) && spec == ChildSpec(d, suffix) && labels == d.templateLabels
  {
    name := d.name + "-" + suffix;
    labels := d.templateLabels;
    spec := d.templateSpec;
    if spec.containerName == "" {
      spec := spec.(containerName := name);
    } else {
      spec := spec.(containerName := spec.containerName + "-" + suffix);
    }
    if spec.managementMode == "" {
      spec := spec.(managementMode := "Enforce");
    }
  }

  method FilterOwned(listing: seq<string>, objects: map<string, Child>) returns (owned: seq<Item>)
    requires forall n :: n in listing ==> n in objects
    ensures owned == OwnedItems(listing, objects)
  {
    owned := [];
    var i := 0;
    while i < |listing|
      invariant 0 <= i <= |listing|
      invariant owned + OwnedItems(listing[i..], objects) == OwnedItems(listing, objects)
    {
      var child := objects[listing[i]];
      assert listing[i..][1..] == listing[i + 1..];
      if child.controlled {
        owned := owned + [Item(listing[i], child)];
      }
      i := i + 1;
    }
  }

  lemma Increment(n: nat)
    ensures Int32(Int32(n) + 1) == Int32(n + 1)
  {
  }

  class DockerDeploymentReconciler {
    const cluster: Cluster
    const deployment: Deployment

    predicate Wired()
    {
      cluster.deployment == deployment
    }

    constructor (cluster: Cluster)
      ensures this.cluster == cluster && Wired()
    {
      this.cluster, this.deployment := cluster, cluster.deployment;
    }

    method ListOwnedContainers() returns (err: Err, owned: seq<Item>)
      modifies cluster
      ensures (cluster.world, err, owned) == ListOwned(old(cluster.world))
    {
      var listing;
      owned := [];
      err, listing := cluster.ListContainers();
      if err != Ok {
        return;
      }
      owned := FilterOwned(listing, cluster.world.objects);
      owned := SortByAge(owned);
    }

    method Replicate(copy: Stored) returns (result: Result)
      requires Wired()
      modifies cluster
      ensures (cluster.world, result) == DeploymentModel.Replicate(deployment, old(cluster.world), copy)
    {
      var err, owned := ListOwnedContainers();
      if err != Ok {
        return Error;
      }
      var stop := ScaleTo(owned);
      if stop.Some? {
        return stop.value;
      }
      result := CountAvailable(copy);
    }

    method ScaleTo(owned: seq<Item>) returns (stop: Option<Result>)
      requires Wired()
      modifies cluster
      ensures (cluster.world, stop) == Scale(deployment, old(cluster.world), owned)
    {
      var currentCount := Int32(|owned|);
      var diff: int := Int32(Replicas(deployment) - currentCount);
      if diff > 0 {
        stop := AddChildren(diff);
        return;
      } else if diff < 0 {
        stop := RemoveChildren(owned, Max(Int32(-diff), 0));
        return;
      }
      return None;
    }

    method AddChildren(diff: nat) returns (stop: Option<Result>)
      requires Wired()
      modifies cluster
      ensures var (w, err) := ScaleUp(deployment, old(cluster.world), diff);
        cluster.world == w && stop == if err != Ok then Some(Error) else None
    {
      var i := 0;
      while i < diff
        invariant 0 <= i <= diff
        invariant ScaleUp(deployment, old(cluster.world), diff) == ScaleUp(deployment, cluster.world, diff - i)
      {
        var name, labels, spec := ConstructContainer(deployment, cluster.Suffix());
        var err := cluster.Create(name, labels, spec);
        if err != Ok {
          return Some(Error);
        }
        i := i + 1;
      }
      return None;
    }

    method RemoveChildren(owned: seq<Item>, removeCount: nat) returns (stop: Option<Result>)
      modifies cluster
      ensures (cluster.world, stop) == ScaleDown(old(cluster.world), owned, removeCount)
    {
      var i := 0;
      assert owned[..|owned|] == owned;
      while i < removeCount
        invariant 0 <= i <= removeCount && i <= |owned|
        invariant ScaleDown(old(cluster.world), owned, removeCount) ==
                  ScaleDown(cluster.world, owned[..|owned| - i], removeCount - i)
      {
        if |owned| - 1 - i < 0 {
          return Some(Panic);  // index out of range
        }
        var victim := owned[|owned| - 1 - i];
        assert owned[..|owned| - i][..|owned| - i - 1] == owned[..|owned| - (i + 1)];
        var err := cluster.Delete(victim.name);
        if err != Ok {
          return Some(Error);
        }
        i := i + 1;
      }
      return None;
    }

    method CountAvailable(copy: Stored) returns (result: Result)
      requires Wired()
      modifies cluster
      ensures (cluster.world, result) == Count(old(cluster.world), copy)
    {
      var err, owned := ListOwnedContainers();
      if err != Ok {
        return Error;
      }
      var available: int32 := 0;
      var i := 0;
      while i < |owned|
        invariant 0 <= i <= |owned|
        invariant available == Int32(RunningCount(owned[..i]))
        invariant cluster.world == ListOwned(old(cluster.world)).0
      {
        assert owned[..i + 1][..i] == owned[..i];
        Increment(RunningCount(owned[..i]));
        if owned[i].child.running {
          available := Int32(available + 1);
        }
        i := i + 1;
      }
      assert owned[..i] == owned;
      result := cluster.UpdateStatus(copy, available);
    }

    method ReconcileDeployment() returns (result: Result)
      requires Wired()
      modifies cluster
      ensures (cluster.world, result) == Reconcile(deployment, old(cluster.world))
    {
      var err, got := cluster.GetDeployment();
      if err == NotFound {
        return Finished;
      }
      if err != Ok {
        return Error;
      }
      if got.value.deleting {
        return Finished;
      }
      result := Replicate(got.value);
    }
  }
}
