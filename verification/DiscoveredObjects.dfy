/** The resources that discovery adds. */
module DiscoveredObjects {
  import opened Go
  import opened Text
  import opened DockerEngine
  import opened ContainerSpecs
  import opened Adoption
  import opened AdoptionProofs
  import opened ContainerModel
  import opened Discovery
  import opened DiscoveryProofs
  import opened DiscoveryLimits

  // ---- What is added ----

  /** The container asks to be adopted. */
  predicate Labelled(c: Container) {
    "kdop.io/adopt" in c.labels && c.labels["kdop.io/adopt"] == "true"
  }

  /** The spec only observes, and says what the container says: image, command, environment up to order,
      restart policy and memory limit. It asks for nothing else. */
  predicate Portrays(spec: Spec, host: string, name: string, c: Container) {
    && spec.managementMode == "Observe"
    && spec.containerName == name && spec.dockerHostRef == host
    && spec.image == c.config.image && spec.command == c.config.cmd
    && multiset(spec.env) == multiset(c.config.env)
    && spec.restartPolicy == c.host.restartPolicy
    && (spec.resources.Some? <==> c.host.nanoCPUs > 0 || c.host.memory > 0)
    && (spec.resources.Some? ==>
          && (spec.resources.value.cpuLimit == "" <== c.host.nanoCPUs <= 0)
          && (if c.host.memory > 0 then ParseMemory(spec.resources.value.memoryLimit) == c.host.memory
              else spec.resources.value.memoryLimit == ""))
    && spec.envVars == [] && spec.volumeMounts == [] && spec.secretVolumes == []
    && spec.imagePullSecret == "" && spec.networkMode == ""
  }

  /** Read back, the ports of the spec give every container port its published host ports. */
  ghost predicate PortsKept(spec: Spec, m: PortMap) {
    var r := ParsePorts(spec.ports);
    r.Some? && forall key :: multiset(Hosts(BindingsAt(r.value, key))) == multiset(PublishedHosts(BindingsAt(m, key)))
  }

  /** A resource made for a labelled container of the host: it observes, nobody owns it, and it says where it
      comes from. */
  ghost predicate AdoptionOf(lib: Lib, o: Stored, host: string, name: string, c: Container, keepsStatus: bool) {
    && Labelled(c)
    && Portrays(o.spec, host, name, c)
    && (PlainPorts(c.host.bindings) ==> (PortsKept(o.spec, c.host.bindings) <==> PublishesTCP(c.host.bindings)))
    && ModeFor(o.spec, o.owners) == Observe
    && o.owners == [] && !o.deleting
    && o.labels == map["kdop.kdop.io.vn/managed-by" := "adopt"]
    && o.annotations == map["kdop.kdop.io.vn/adopted-from" := host + "/" + FormatInt(c.id)]
    && o.status == Status(None, NoState, keepsStatus, if keepsStatus then lib.hash(o.spec) else "")
  }

  ghost predicate IsAdoption(lib: Lib, o: Stored, host: string, en: Engine, keepsStatus: bool) {
    exists name :: name in en.containers && AdoptionOf(lib, o, host, name, en.containers[name], keepsStatus)
  }

  lemma SnapshotPortrays(lib: Lib, host: string, name: string, c: Container, orders: Orders)
    ensures Portrays(SpecOf(lib, host, name, c, orders), host, name, c)
  {
    SpecNames(lib, host, name, c, orders);
    MemoryRoundTrip(c.host.memory);
  }

  lemma UpsertPuts(lib: Lib, host: string, w: World, id: nat, spec: Spec, orders: Orders, keepsStatus: bool)
    requires Fair(orders) && Consistent(w)
    ensures var put := Adopted(lib, host, id, spec);
      var v := Upsert(lib, host, w, id, spec, orders, keepsStatus).0;
      forall key :: key in v.objects && key !in w.objects ==>
        v.objects[key] == put.(status := if keepsStatus then put.status else EMPTY_STATUS)
  {
    var (w1, listed) := Read(w);
    var claim := FirstClaim(w1.objects, orders.objects(|w1.tape|, w1.objects.Keys), host, spec.containerName);
    if listed && claim.Some? {
      RefreshGrows(w1, claim.value, host, id, lib.hash(spec));
    }
  }

  lemma AdoptedIsAdoption(lib: Lib, host: string, name: string, c: Container, orders: Orders, keepsStatus: bool)
    requires Fair(orders) && Adoptable(c)
    ensures var put := Adopted(lib, host, c.id, SpecOf(lib, host, name, c, orders));
      AdoptionOf(lib, put.(status := if keepsStatus then put.status else EMPTY_STATUS), host, name, c, keepsStatus)
  {
    var spec := SpecOf(lib, host, name, c, orders);
    SnapshotPortrays(lib, host, name, c, orders);
    if PlainPorts(c.host.bindings) {
      assert PortsKept(spec, c.host.bindings) <==> PortsSurvive(orders.ports(c.host.bindings), c.host.bindings);
      PortsSurviveExactly(orders.ports(c.host.bindings), c.host.bindings);
    }
  }

  /** An upsert adds at most the resource of its container. */
  lemma UpsertCreates(lib: Lib, host: string, w: World, name: string, orders: Orders, keepsStatus: bool)
    requires Fair(orders) && Consistent(w) && name in w.engine.containers && Adoptable(w.engine.containers[name])
    ensures var c := w.engine.containers[name];
      var v := Upsert(lib, host, w, c.id, SpecOf(lib, host, name, c, orders), orders, keepsStatus).0;
      forall key :: key in v.objects && key !in w.objects ==>
        AdoptionOf(lib, v.objects[key], host, name, c, keepsStatus)
  {
    var c := w.engine.containers[name];
    var spec := SpecOf(lib, host, name, c, orders);
    AdoptedIsAdoption(lib, host, name, c, orders, keepsStatus);
    UpsertPuts(lib, host, w, c.id, spec, orders, keepsStatus);
  }

  lemma AddedStays(lib: Lib, host: string, w: World, names: seq<string>, orders: Orders, keepsStatus: bool,
                   key: string, name: string, c: Container)
    requires Fair(orders) && Consistent(w) && key in w.objects
    requires AdoptionOf(lib, w.objects[key], host, name, c, keepsStatus)
    requires name !in names
    ensures var v := DiscoverFrom(lib, host, w, names, orders, keepsStatus).0;
      key in v.objects && AdoptionOf(lib, v.objects[key], host, name, c, keepsStatus)
  {
    DiscoverFrame(lib, host, w, names, orders, keepsStatus, key);
  }

  lemma {:induction false} PassAdds(
    lib: Lib, host: string, w: World, names: seq<string>, orders: Orders, keepsStatus: bool)
    requires Fair(orders) && Consistent(w) && Distinct(names)
    ensures var v := DiscoverFrom(lib, host, w, names, orders, keepsStatus).0;
      forall key :: key in v.objects && key !in w.objects ==>
        IsAdoption(lib, v.objects[key], host, w.engine, keepsStatus)
    decreases |names|
  {
    if names != [] {
      if Wanted(w, names, names[0]) {
        DiscoverUnfolds(lib, host, w, names, orders, keepsStatus);
        var c := w.engine.containers[names[0]];
        UpsertCreates(lib, host, Await(w).0, names[0], orders, keepsStatus);
        UpsertedGrows(lib, host, w, names[0], orders, keepsStatus);
        var (u, ok) := Upserted(lib, host, w, names[0], orders, keepsStatus);
        if ok {
          PassAdds(lib, host, u, names[1..], orders, keepsStatus);
        }
        var v := DiscoverFrom(lib, host, w, names, orders, keepsStatus).0;
        forall key | key in v.objects && key !in w.objects
          ensures IsAdoption(lib, v.objects[key], host, w.engine, keepsStatus)
        {
          if key in u.objects {
            assert AdoptionOf(lib, u.objects[key], host, names[0], c, keepsStatus);
            AddedStays(lib, host, u, names[1..], orders, keepsStatus, key, names[0], c);
          }
        }
      } else {
        PassAdds(lib, host, w, names[1..], orders, keepsStatus);
      }
    }
  }

  /** However the calls of a pass end, every resource that it adds is the adoption of a container that asks for
      it. */
  lemma DiscoverAdds(lib: Lib, host: string, w: World, orders: Orders, keepsStatus: bool)
    requires Fair(orders) && Consistent(w)
    ensures var v := Discover(lib, host, w, orders, keepsStatus).0;
      forall key :: key in v.objects && key !in w.objects ==>
        IsAdoption(lib, v.objects[key], host, w.engine, keepsStatus)
  {
    var (w1, listed) := Read(w);
    if listed {
      ListedNames(orders, w1.engine.containers.Keys);
      PassAdds(lib, host, w1, orders.containers(w1.engine.containers.Keys), orders, keepsStatus);
    }
  }

  lemma UpsertClaims(lib: Lib, host: string, w: World, name: string, orders: Orders, keepsStatus: bool)
    requires Fair(orders) && Consistent(w) && name in w.engine.containers
    requires Upserted(lib, host, w, name, orders, keepsStatus).1
    ensures Claimed(host, Upserted(lib, host, w, name, orders, keepsStatus).0, name)
  {
    var c := w.engine.containers[name];
    var spec := SpecOf(lib, host, name, c, orders);
    SpecNames(lib, host, name, c, orders);
    var (w1, listed) := Read(Await(w).0);
    ClaimOf(w1, |w1.tape|, orders, host, name);
    var v := Upserted(lib, host, w, name, orders, keepsStatus).0;
    UpsertedGrows(lib, host, w, name, orders, keepsStatus);
    var claim := FirstClaim(w1.objects, orders.objects(|w1.tape|, w1.objects.Keys), host, name);
    if claim.Some? {
      assert Claims(v.objects[claim.value], host, name);
    } else {
      assert Claims(v.objects[AdoptedObjectName(name)], host, name);
    }
  }

  lemma {:induction false} ThroughClaimsAll(
    lib: Lib, host: string, w: World, names: seq<string>, orders: Orders, keepsStatus: bool)
    requires Fair(orders) && Consistent(w) && DiscoverFrom(lib, host, w, names, orders, keepsStatus).1
    ensures ClaimedAll(DiscoverFrom(lib, host, w, names, orders, keepsStatus).0, host, names)
    decreases |names|
  {
    if names != [] {
      if Wanted(w, names, names[0]) {
        DiscoverUnfolds(lib, host, w, names, orders, keepsStatus);
        UpsertClaims(lib, host, w, names[0], orders, keepsStatus);
        UpsertedGrows(lib, host, w, names[0], orders, keepsStatus);
        var u := Upserted(lib, host, w, names[0], orders, keepsStatus).0;
        ThroughClaimsAll(lib, host, u, names[1..], orders, keepsStatus);
        DiscoverFromKeeps(lib, host, u, names[1..], orders, keepsStatus);
        StillClaimed(u, DiscoverFrom(lib, host, u, names[1..], orders, keepsStatus).0, host, names[0]);
      } else {
        SkipsUnwanted(lib, host, w, names, orders, keepsStatus);
        ThroughClaimsAll(lib, host, w, names[1..], orders, keepsStatus);
        DiscoverFromKeeps(lib, host, w, names, orders, keepsStatus);
      }
      ClaimedTail(DiscoverFrom(lib, host, w, names, orders, keepsStatus).0, host, names);
    }
  }

  /** Whenever a pass gets through, every container that asks for it has a resource that names it. */
  lemma LabelledAreAdopted(lib: Lib, host: string, w: World, orders: Orders, keepsStatus: bool, name: string)
    requires Fair(orders) && Consistent(w) && Discover(lib, host, w, orders, keepsStatus).1
    requires name in w.engine.containers && Labelled(w.engine.containers[name])
    ensures var v := Discover(lib, host, w, orders, keepsStatus).0;
      exists key :: key in v.objects
        && v.objects[key].spec.dockerHostRef == host && v.objects[key].spec.containerName == name
  {
    var (w1, listed) := Read(w);
    var names := orders.containers(w1.engine.containers.Keys);
    ListedNames(orders, w1.engine.containers.Keys);
    ThroughClaimsAll(lib, host, w1, names, orders, keepsStatus);
    DiscoverKeeps(lib, host, w, orders, keepsStatus);
    var v := Discover(lib, host, w, orders, keepsStatus).0;
    assert Wanted(v, names, name) && Claimed(host, v, name);
    var key :| key in v.objects && Claims(v.objects[key], host, name);
    assert v.objects[key].spec.dockerHostRef == host;
  }

  // ---- What a refresh writes ----

  /** Marked as adopted from this container of this host. */
  predicate MarkedAs(o: Stored, host: string, id: nat) {
    && "kdop.kdop.io.vn/managed-by" in o.labels && o.labels["kdop.kdop.io.vn/managed-by"] == "adopt"
    && "kdop.kdop.io.vn/adopted-from" in o.annotations
    && o.annotations["kdop.kdop.io.vn/adopted-from"] == host + "/" + FormatInt(id)
  }

  /** Other labels and annotations, and what the container's own controller reports, stay. */
  ghost predicate OnlyMarked(o: Stored, p: Stored) {
    && p == o.(labels := p.labels, annotations := p.annotations,
               status := o.status.(adopted := p.status.adopted, specHash := p.status.specHash))
    && (forall l :: l != "kdop.kdop.io.vn/managed-by" ==>
          (l in p.labels <==> l in o.labels) && (l in o.labels ==> p.labels[l] == o.labels[l]))
    && (forall a :: a != "kdop.kdop.io.vn/adopted-from" ==>
          (a in p.annotations <==> a in o.annotations) && (a in o.annotations ==> p.annotations[a] == o.annotations[a]))
  }

  lemma MarkedSays(o: Stored, host: string, id: nat)
    ensures MarkedAs(Marked(o, host, id), host, id) && OnlyMarked(o, Marked(o, host, id))
  {
  }

  /** At most this object was written. */
  ghost predicate Written(w: World, v: World, key: string, o: Stored) {
    key in w.objects && (v.objects == w.objects || v.objects == w.objects[key := o])
  }

  lemma PutWrites(w: World, key: string, put: Stored)
    requires key in w.objects && !(put.deleting && put.finalizers == {})
    ensures var (v, ok) := Put(w, key, put); Written(w, v, key, put) && (ok ==> v.objects[key] == put)
  {
  }

  lemma StatusWrites(w: World, key: string, status: Status)
    requires key in w.objects
    ensures var (v, ok) := PutStatus(w, key, status);
      var put := w.objects[key].(status := status);
      Written(w, v, key, put) && (ok ==> v.objects[key] == put)
  {
  }

  /** However its calls end, a refresh writes the two marks, Adopted and the hash, and nothing else; if it
      succeeds all of them are there. */
  lemma RefreshMarks(w: World, key: string, host: string, id: nat, hash: string)
    requires Consistent(w) && key in w.objects
    ensures var (v, ok) := Refresh(w, key, host, id, hash);
      && key in v.objects && v.objects == w.objects[key := v.objects[key]]
      && OnlyMarked(w.objects[key], v.objects[key])
      && (ok ==>
            && MarkedAs(v.objects[key], host, id)
            && v.objects[key].status.adopted && v.objects[key].status.specHash == hash)
  {
    var o := w.objects[key];
    var marked := Marked(o, host, id);
    MarkedSays(o, host, id);
    PutWrites(w, key, marked);
    var (w1, ok) := if marked != o then Put(w, key, marked) else (w, true);
    if ok {
      StatusWrites(w1, key, marked.status.(adopted := true, specHash := hash));
    }
  }
}
