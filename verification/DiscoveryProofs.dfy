/** Discovery settles, never claims a container twice, and never touches the Docker host. */
module DiscoveryProofs {
  import opened DockerEngine
  import opened ContainerSpecs
  import opened Adoption
  import opened AdoptionProofs
  import opened ContainerModel
  import opened Discovery

  // ---- One claim per container ----

  ghost predicate SingleClaims(w: World, host: string) {
    forall a, b, name ::
      a in w.objects && b in w.objects && Claims(w.objects[a], host, name) && Claims(w.objects[b], host, name) ==>
        a == b
  }

  lemma {:induction false} FirstClaimFound(objects: map<string, Stored>, keys: seq<string>, host: string, name: string)
    ensures var r := FirstClaim(objects, keys, host, name);
      && (r.Some? ==> r.value in keys && r.value in objects && Claims(objects[r.value], host, name))
      && (r.None? ==> forall k :: k in keys && k in objects ==> !Claims(objects[k], host, name))
  {
    if keys != [] {
      FirstClaimFound(objects, keys[1..], host, name);
    }
  }

  /** The object that claims the container, or none if there is none: in whatever order they are listed. */
  lemma ClaimOf(w: World, n: nat, orders: Orders, host: string, name: string)
    requires Fair(orders)
    ensures var r := FirstClaim(w.objects, orders.objects(n, w.objects.Keys), host, name);
      && (r.Some? ==> r.value in w.objects && Claims(w.objects[r.value], host, name))
      && (r.None? ==> forall k :: k in w.objects ==> !Claims(w.objects[k], host, name))
  {
    assert Lists(orders.objects(n, w.objects.Keys), w.objects.Keys);
    FirstClaimFound(w.objects, orders.objects(n, w.objects.Keys), host, name);
  }

  /** The server stores no object whose deletion is complete. */
  ghost predicate Consistent(w: World) {
    forall k :: k in w.objects ==> !(w.objects[k].deleting && w.objects[k].finalizers == {})
  }

  predicate Retained(a: Stored, b: Stored) {
    b.spec == a.spec && b.owners == a.owners && b.deleting == a.deleting && (a.status.adopted ==> b.status.adopted)
  }

  /** Discovery only adds objects; specs and owners stay, and Adopted is never taken back. The Docker
      host is not touched at all. */
  ghost predicate Grown(w: World, w': World) {
    && w'.engine == w.engine && w'.ops == w.ops && Consistent(w')
    && forall k :: k in w.objects ==> k in w'.objects && Retained(w.objects[k], w'.objects[k])
  }

  lemma PutGrows(w: World, key: string, put: Stored)
    requires Consistent(w) && key in w.objects && Retained(w.objects[key], put)
    requires !(put.deleting && put.finalizers == {})
    ensures var w' := Put(w, key, put).0; Grown(w, w') && w'.objects.Keys == w.objects.Keys
  {
  }

  lemma PutStatusGrows(w: World, key: string, status: Status)
    requires Consistent(w) && key in w.objects && (w.objects[key].status.adopted ==> status.adopted)
    ensures var w' := PutStatus(w, key, status).0; Grown(w, w') && w'.objects.Keys == w.objects.Keys
  {
  }

  lemma RefreshGrows(w: World, key: string, host: string, id: nat, hash: string)
    requires Consistent(w)
    ensures var w' := Refresh(w, key, host, id, hash).0; Grown(w, w') && w'.objects.Keys == w.objects.Keys
  {
    if key in w.objects {
      var marked := Marked(w.objects[key], host, id);
      PutGrows(w, key, marked);
      var (w1, ok) := if marked != w.objects[key] then Put(w, key, marked) else (w, true);
      if ok && !UpToDate(marked.status, hash) {
        PutStatusGrows(w1, key, marked.status.(adopted := true, specHash := hash));
      }
    }
  }

  lemma SameClaims(w: World, w': World, host: string)
    requires SingleClaims(w, host) && Grown(w, w') && w'.objects.Keys == w.objects.Keys
    ensures SingleClaims(w', host)
  {
    forall a, b, name | a in w'.objects && b in w'.objects &&
                        Claims(w'.objects[a], host, name) && Claims(w'.objects[b], host, name)
      ensures a == b
    {
      assert Claims(w.objects[a], host, name) && Claims(w.objects[b], host, name);
    }
  }

  lemma CreateGrows(w: World, key: string, put: Stored, keepsStatus: bool)
    requires Consistent(w) && !put.deleting
    ensures Grown(w, CreateObject(w, key, put, keepsStatus).0)
  {
  }

  lemma CreateClaims(w: World, key: string, put: Stored, keepsStatus: bool, host: string)
    requires SingleClaims(w, host)
    requires forall k :: k in w.objects ==> !Claims(w.objects[k], host, put.spec.containerName)
    ensures SingleClaims(CreateObject(w, key, put, keepsStatus).0, host)
  {
  }

  lemma UpsertKeeps(lib: Lib, host: string, w: World, id: nat, spec: Spec, orders: Orders, keepsStatus: bool)
    requires Fair(orders) && Consistent(w)
    ensures var w' := Upsert(lib, host, w, id, spec, orders, keepsStatus).0;
      Grown(w, w') && (SingleClaims(w, host) ==> SingleClaims(w', host))
  {
    var (w1, listed) := Read(w);
    if listed {
      ClaimOf(w1, |w1.tape|, orders, host, spec.containerName);
      var claim := FirstClaim(w1.objects, orders.objects(|w1.tape|, w1.objects.Keys), host, spec.containerName);
      if claim.Some? {
        RefreshGrows(w1, claim.value, host, id, lib.hash(spec));
        if SingleClaims(w, host) {
          SameClaims(w1, Refresh(w1, claim.value, host, id, lib.hash(spec)).0, host);
        }
      } else {
        var put := Adopted(lib, host, id, spec);
        CreateGrows(w1, AdoptedObjectName(spec.containerName), put, keepsStatus);
        if SingleClaims(w, host) {
          CreateClaims(w1, AdoptedObjectName(spec.containerName), put, keepsStatus, host);
        }
      }
    }
  }

  lemma GrownTransitive(u: World, v: World, w: World)
    requires Grown(u, v) && Grown(v, w)
    ensures Grown(u, w)
  {
  }

  lemma {:induction false} UpsertThenKeeps(
    lib: Lib, host: string, w: World, id: nat, spec: Spec, names: seq<string>, orders: Orders, keepsStatus: bool)
    requires Fair(orders) && Consistent(w)
    ensures var (u, ok) := Upsert(lib, host, w, id, spec, orders, keepsStatus);
      var v := if ok then DiscoverFrom(lib, host, u, names, orders, keepsStatus).0 else u;
      Grown(w, v) && (SingleClaims(w, host) ==> SingleClaims(v, host))
    decreases |names|, 1
  {
    UpsertKeeps(lib, host, w, id, spec, orders, keepsStatus);
    var (u, ok) := Upsert(lib, host, w, id, spec, orders, keepsStatus);
    if ok {
      DiscoverFromKeeps(lib, host, u, names, orders, keepsStatus);
      GrownTransitive(w, u, DiscoverFrom(lib, host, u, names, orders, keepsStatus).0);
    }
  }

  lemma {:induction false} DiscoverFromKeeps(
    lib: Lib, host: string, w: World, names: seq<string>, orders: Orders, keepsStatus: bool)
    requires Fair(orders) && Consistent(w)
    ensures var w' := DiscoverFrom(lib, host, w, names, orders, keepsStatus).0;
      Grown(w, w') && (SingleClaims(w, host) ==> SingleClaims(w', host))
    decreases |names|, 0
  {
    if names != [] {
      if names[0] !in w.engine.containers || !Adoptable(w.engine.containers[names[0]]) {
        DiscoverFromKeeps(lib, host, w, names[1..], orders, keepsStatus);
      } else {
        var id := w.engine.containers[names[0]].id;
        var (w1, c, err) := InspectContainer(w, ById(names[0], id));
        if err == Ok {
          var spec := SpecOf(lib, host, names[0], c.value, orders);
          UpsertThenKeeps(lib, host, w1, id, spec, names[1..], orders, keepsStatus);
        }
      }
    }
  }

  /** No discovery pass gives a container a second resource that names it, takes a claim back, or makes
      a call that could change the Docker host, however its calls end and in whatever order things are
      listed. Resources that rely on their own name are another matter: see DefaultNames. */
  lemma DiscoverKeeps(lib: Lib, host: string, w: World, orders: Orders, keepsStatus: bool)
    requires Fair(orders) && Consistent(w)
    ensures var w' := Discover(lib, host, w, orders, keepsStatus).0;
      Grown(w, w') && (SingleClaims(w, host) ==> SingleClaims(w', host))
  {
    var (w1, listed) := Read(w);
    if listed {
      DiscoverFromKeeps(lib, host, w1, orders.containers(w1.engine.containers.Keys), orders, keepsStatus);
    }
  }

  // ---- Settling ----

  /** Nothing about the object of this container is left to write. */
  ghost predicate SettledAt(lib: Lib, host: string, w: World, name: string, orders: Orders, key: string)
    requires name in w.engine.containers
  {
    var c := w.engine.containers[name];
    && key in w.objects
    && Claims(w.objects[key], host, name)
    && Marked(w.objects[key], host, c.id) == w.objects[key]
    && UpToDate(w.objects[key].status, lib.hash(SpecOf(lib, host, name, c, orders)))
  }

  ghost predicate Claimed(host: string, w: World, name: string) {
    exists key :: key in w.objects && Claims(w.objects[key], host, name)
  }

  ghost predicate Settled(lib: Lib, host: string, w: World, name: string, orders: Orders)
    requires name in w.engine.containers
  {
    exists key :: SettledAt(lib, host, w, name, orders, key)
  }

  /** The containers of a list that carry the adopt label. */
  predicate Wanted(w: World, names: seq<string>, name: string) {
    name in names && name in w.engine.containers && Adoptable(w.engine.containers[name])
  }

  /** All listing orders give the same spec. */
  lemma SpecIgnoresOrder(lib: Lib, host: string, name: string, c: Container, a: Orders, b: Orders)
    requires Fair(a) && Fair(b)
    ensures SpecOf(lib, host, name, c, a) == SpecOf(lib, host, name, c, b)
  {
    SnapshotIsCanonical(lib.floats, host, "/" + name, InspectOf(name, c), InspectOf(name, c),
                        a.ports(c.host.bindings), b.ports(c.host.bindings));
  }

  lemma SpecNames(lib: Lib, host: string, name: string, c: Container, orders: Orders)
    ensures var spec := SpecOf(lib, host, name, c, orders); spec.containerName == name && spec.dockerHostRef == host
  {
    assert ("/" + name)[1..] == name;
  }

  ghost predicate SettledAll(lib: Lib, host: string, w: World, names: seq<string>, orders: Orders) {
    forall name :: Wanted(w, names, name) ==> Settled(lib, host, w, name, orders)
  }

  lemma SettledUpsert(lib: Lib, host: string, w: World, name: string, orders: Orders, keepsStatus: bool)
    requires Fair(orders) && SingleClaims(w, host) && name in w.engine.containers
    requires Settled(lib, host, w, name, orders)
    ensures var c := w.engine.containers[name];
      var w' := Upsert(lib, host, w, c.id, SpecOf(lib, host, name, c, orders), orders, keepsStatus).0;
      w'.writes == w.writes && w'.objects == w.objects && w'.engine == w.engine
  {
    SpecNames(lib, host, name, w.engine.containers[name], orders);
    var (w1, listed) := Read(w);
    ClaimOf(w1, |w1.tape|, orders, host, name);
  }

  /** Being settled depends on the containers and the objects only. */
  lemma SettledElsewhere(lib: Lib, host: string, w: World, w': World, names: seq<string>, orders: Orders)
    requires w'.objects == w.objects && w'.engine == w.engine
    requires SettledAll(lib, host, w, names, orders)
    ensures SettledAll(lib, host, w', names, orders)
  {
    forall name | Wanted(w', names, name) ensures Settled(lib, host, w', name, orders) {
      assert Wanted(w, names, name);
      var key :| SettledAt(lib, host, w, name, orders, key);
      assert SettledAt(lib, host, w', name, orders, key);
    }
  }

  lemma {:induction false} SettledMakesNoWrites(
    lib: Lib, host: string, w: World, names: seq<string>, orders: Orders, keepsStatus: bool)
    requires Fair(orders) && SingleClaims(w, host) && SettledAll(lib, host, w, names, orders)
    ensures var w' := DiscoverFrom(lib, host, w, names, orders, keepsStatus).0;
      w'.writes == w.writes && w'.objects == w.objects
    decreases |names|
  {
    if names != [] {
      if names[0] !in w.engine.containers || !Adoptable(w.engine.containers[names[0]]) {
        assert SettledAll(lib, host, w, names[1..], orders);
        SettledMakesNoWrites(lib, host, w, names[1..], orders, keepsStatus);
      } else {
        assert Wanted(w, names, names[0]);
        var id := w.engine.containers[names[0]].id;
        var (w1, c, err) := InspectContainer(w, ById(names[0], id));
        assert w1.objects == w.objects && w1.engine == w.engine && w1.writes == w.writes;
        if err == Ok {
          SettledElsewhere(lib, host, w, w1, names, orders);
          assert Wanted(w1, names, names[0]);
          SettledUpsert(lib, host, w1, names[0], orders, keepsStatus);
          var spec := SpecOf(lib, host, names[0], c.value, orders);
          var (w3, ok) := Upsert(lib, host, w1, id, spec, orders, keepsStatus);
          SettledElsewhere(lib, host, w, w3, names, orders);
          assert SettledAll(lib, host, w3, names[1..], orders);
          SettledMakesNoWrites(lib, host, w3, names[1..], orders, keepsStatus);
        }
      }
    }
  }

  // ---- Two passes are enough ----

  ghost predicate Smooth(w: World, n: int) {
    |w.tape| >= n && forall i :: 0 <= i < |w.tape| ==> w.tape[i] == Done
  }

  lemma RefreshFrame(w: World, other: string, host: string, id: nat, hash: string, key: string)
    requires Consistent(w) && key in w.objects && other != key
    ensures var w' := Refresh(w, other, host, id, hash).0; key in w'.objects && w'.objects[key] == w.objects[key]
  {
    RefreshGrows(w, other, host, id, hash);
  }

  /** Objects that claim other containers are left as they are. */
  lemma UpsertFrame(
    lib: Lib, host: string, w: World, id: nat, spec: Spec, orders: Orders, keepsStatus: bool, key: string)
    requires Fair(orders) && Consistent(w) && key in w.objects && !Claims(w.objects[key], host, spec.containerName)
    ensures var w' := Upsert(lib, host, w, id, spec, orders, keepsStatus).0;
      key in w'.objects && w'.objects[key] == w.objects[key]
  {
    var (w1, listed) := Read(w);
    if listed {
      ClaimOf(w1, |w1.tape|, orders, host, spec.containerName);
      var claim := FirstClaim(w1.objects, orders.objects(|w1.tape|, w1.objects.Keys), host, spec.containerName);
      if claim.Some? {
        RefreshFrame(w1, claim.value, host, id, lib.hash(spec), key);
      }
    }
  }

  lemma {:induction false} DiscoverFrame(
    lib: Lib, host: string, w: World, names: seq<string>, orders: Orders, keepsStatus: bool, key: string)
    requires Fair(orders) && Consistent(w) && key in w.objects
    requires forall name :: name in names ==> !Claims(w.objects[key], host, name)
    ensures var w' := DiscoverFrom(lib, host, w, names, orders, keepsStatus).0;
      key in w'.objects && w'.objects[key] == w.objects[key]
    decreases |names|
  {
    if names != [] {
      if names[0] !in w.engine.containers || !Adoptable(w.engine.containers[names[0]]) {
        DiscoverFrame(lib, host, w, names[1..], orders, keepsStatus, key);
      } else {
        var id := w.engine.containers[names[0]].id;
        var (w1, c, err) := InspectContainer(w, ById(names[0], id));
        if err == Ok {
          var spec := SpecOf(lib, host, names[0], c.value, orders);
          SpecNames(lib, host, names[0], c.value, orders);
          UpsertKeeps(lib, host, w1, id, spec, orders, keepsStatus);
          UpsertFrame(lib, host, w1, id, spec, orders, keepsStatus, key);
          var (w2, ok) := Upsert(lib, host, w1, id, spec, orders, keepsStatus);
          DiscoverFrame(lib, host, w2, names[1..], orders, keepsStatus, key);
        }
      }
    }
  }

  lemma MarkedTwice(o: Stored, host: string, id: nat)
    ensures Marked(Marked(o, host, id), host, id) == Marked(o, host, id)
    ensures forall s :: Marked(Marked(o, host, id).(status := s), host, id) == Marked(o, host, id).(status := s)
  {
    var m := Marked(o, host, id);
    assert m.labels[MANAGED_BY := MANAGED_BY_ADOPT] == m.labels;
    assert m.annotations[ADOPTED_FROM := AdoptedFrom(host, id)] == m.annotations;
  }

  lemma RefreshSettles(w: World, key: string, host: string, id: nat, hash: string, n: nat)
    requires Consistent(w) && key in w.objects && Smooth(w, n + 2)
    ensures var (w', ok) := Refresh(w, key, host, id, hash);
      && ok && Smooth(w', n) && w'.engine == w.engine && Consistent(w') && key in w'.objects
      && w'.objects[key].spec == w.objects[key].spec
      && Marked(w'.objects[key], host, id) == w'.objects[key] && UpToDate(w'.objects[key].status, hash)
  {
    var o := w.objects[key];
    var marked := Marked(o, host, id);
    RefreshGrows(w, key, host, id, hash);
    var (w1, ok) := if marked != o then Put(w, key, marked) else (w, true);
    assert ok && Smooth(w1, n + 1) && w1.objects[key] == marked;
    MarkedTwice(o, host, id);
  }

  /** A smooth upsert of a claimed container settles it. */
  lemma ClaimedUpsert(lib: Lib, host: string, w: World, name: string, orders: Orders, keepsStatus: bool, n: nat)
    requires Fair(orders) && Consistent(w) && name in w.engine.containers && Smooth(w, n + 3)
    requires Claimed(host, w, name)
    ensures var c := w.engine.containers[name];
      var (w', ok) := Upsert(lib, host, w, c.id, SpecOf(lib, host, name, c, orders), orders, keepsStatus);
      && ok && Smooth(w', n) && w'.engine == w.engine && Consistent(w') && Settled(lib, host, w', name, orders)
  {
    var c := w.engine.containers[name];
    var spec := SpecOf(lib, host, name, c, orders);
    SpecNames(lib, host, name, c, orders);
    var (w1, _) := Read(w);
    ClaimOf(w1, |w1.tape|, orders, host, name);
    var key := FirstClaim(w1.objects, orders.objects(|w1.tape|, w1.objects.Keys), host, name).value;
    RefreshSettles(w1, key, host, c.id, lib.hash(spec), n);
    var (w2, ok) := Refresh(w1, key, host, c.id, lib.hash(spec));
    assert SettledAt(lib, host, w2, name, orders, key);
  }

  ghost predicate ClaimedAll(w: World, host: string, names: seq<string>) {
    forall name :: Wanted(w, names, name) ==> Claimed(host, w, name)
  }

  lemma StillClaimed(w: World, w': World, host: string, name: string)
    requires Grown(w, w') && Claimed(host, w, name)
    ensures Claimed(host, w', name)
  {
    var key :| key in w.objects && Claims(w.objects[key], host, name);
    assert Claims(w'.objects[key], host, name);
  }

  /** The world after the upsert of one wanted container. */
  function Upserted(lib: Lib, host: string, w: World, name: string, orders: Orders, keepsStatus: bool): (World, bool)
    requires name in w.engine.containers
  {
    var c := w.engine.containers[name];
    var w1 := Await(w).0;
    Upsert(lib, host, w1, c.id, SpecOf(lib, host, name, c, orders), orders, keepsStatus)
  }

  lemma ClaimedStep(lib: Lib, host: string, w: World, name: string, orders: Orders, keepsStatus: bool, n: nat)
    requires Fair(orders) && Consistent(w) && name in w.engine.containers && Smooth(w, n + 4) && Claimed(host, w, name)
    ensures var (w', ok) := Upserted(lib, host, w, name, orders, keepsStatus);
      ok && Smooth(w', n) && Grown(w, w') && Settled(lib, host, w', name, orders)
  {
    var w1 := Await(w).0;
    var c := w.engine.containers[name];
    assert Grown(w, w1);
    StillClaimed(w, w1, host, name);
    ClaimedUpsert(lib, host, w1, name, orders, keepsStatus, n);
    UpsertKeeps(lib, host, w1, c.id, SpecOf(lib, host, name, c, orders), orders, keepsStatus);
  }

  /** A pass is the inspection and the upsert of its first wanted container, then a pass over the others. */
  lemma DiscoverUnfolds(lib: Lib, host: string, w: World, names: seq<string>, orders: Orders, keepsStatus: bool)
    requires names != [] && Wanted(w, names, names[0])
    ensures var (w', ok) := Upserted(lib, host, w, names[0], orders, keepsStatus);
      DiscoverFrom(lib, host, w, names, orders, keepsStatus) ==
        if Await(w).1 != Done then (Await(w).0, false)
        else if ok then DiscoverFrom(lib, host, w', names[1..], orders, keepsStatus)
        else (w', false)
  {
  }

  lemma WantedTail(w: World, names: seq<string>)
    requires names != []
    ensures forall name :: Wanted(w, names[1..], name) ==> Wanted(w, names, name)
    ensures forall name :: Wanted(w, names, name) ==> name == names[0] || Wanted(w, names[1..], name)
  {
    assert names == [names[0]] + names[1..];
  }

  lemma SettledStays(
    lib: Lib, host: string, w: World, name: string, names: seq<string>, orders: Orders, keepsStatus: bool)
    requires Fair(orders) && Consistent(w) && name in w.engine.containers && name !in names
    requires Settled(lib, host, w, name, orders)
    ensures var w' := DiscoverFrom(lib, host, w, names, orders, keepsStatus).0;
      w'.engine == w.engine && Settled(lib, host, w', name, orders)
  {
    var key :| SettledAt(lib, host, w, name, orders, key);
    DiscoverFromKeeps(lib, host, w, names, orders, keepsStatus);
    DiscoverFrame(lib, host, w, names, orders, keepsStatus, key);
    assert SettledAt(lib, host, DiscoverFrom(lib, host, w, names, orders, keepsStatus).0, name, orders, key);
  }

  /** A smooth pass over claimed containers settles them all. */
  lemma {:induction false} ClaimedPass(
    lib: Lib, host: string, w: World, names: seq<string>, orders: Orders, keepsStatus: bool)
    requires Fair(orders) && Consistent(w) && Distinct(names) && ClaimedAll(w, host, names)
    requires Smooth(w, 4 * |names|)
    ensures var (w', ok) := DiscoverFrom(lib, host, w, names, orders, keepsStatus);
      ok && w'.engine == w.engine && SettledAll(lib, host, w', names, orders)
    decreases |names|
  {
    if names != [] {
      var rest := names[1..];
      WantedTail(w, names);
      if Wanted(w, names, names[0]) {
        ClaimedStep(lib, host, w, names[0], orders, keepsStatus, 4 * |rest|);
        DiscoverUnfolds(lib, host, w, names, orders, keepsStatus);
        var w2 := Upserted(lib, host, w, names[0], orders, keepsStatus).0;
        forall name | Wanted(w2, rest, name) ensures Claimed(host, w2, name) {
          assert Wanted(w, rest, name);
          StillClaimed(w, w2, host, name);
        }
        ClaimedPass(lib, host, w2, rest, orders, keepsStatus);
        SettledStays(lib, host, w2, names[0], rest, orders, keepsStatus);
      } else {
        ClaimedPass(lib, host, w, rest, orders, keepsStatus);
      }
      WantedTail(DiscoverFrom(lib, host, w, names, orders, keepsStatus).0, names);
    }
  }

  /** The object names that adoption would take are free, and no two of them are the same. */
  ghost predicate FreeNames(w: World, host: string, names: seq<string>) {
    && (forall name :: Wanted(w, names, name) && !Claimed(host, w, name) ==> AdoptedObjectName(name) !in w.objects)
    && (forall a, b :: a != b && Wanted(w, names, a) && Wanted(w, names, b) ==>
          Claimed(host, w, a) || Claimed(host, w, b) || AdoptedObjectName(a) != AdoptedObjectName(b))
  }

  lemma CreateSmooth(w: World, key: string, put: Stored, keepsStatus: bool, host: string, name: string, n: nat)
    requires Smooth(w, n + 1) && key !in w.objects && Claims(put, host, name)
    ensures var (v, ok) := CreateObject(w, key, put, keepsStatus);
      && ok && Smooth(v, n) && v.engine == w.engine && v.objects.Keys == w.objects.Keys + {key}
      && Claimed(host, v, name)
  {
    var v := CreateObject(w, key, put, keepsStatus).0;
    assert Claims(v.objects[key], host, name);
  }

  /** A smooth upsert of a container whose object name is free leaves it claimed. */
  lemma FreeUpsert(lib: Lib, host: string, w: World, name: string, orders: Orders, keepsStatus: bool, n: nat)
    requires Fair(orders) && Consistent(w) && name in w.engine.containers && Smooth(w, n + 3)
    requires !Claimed(host, w, name) && AdoptedObjectName(name) !in w.objects
    ensures var c := w.engine.containers[name];
      var (w', ok) := Upsert(lib, host, w, c.id, SpecOf(lib, host, name, c, orders), orders, keepsStatus);
      && ok && Smooth(w', n) && w'.engine == w.engine && Claimed(host, w', name)
      && w'.objects.Keys == w.objects.Keys + {AdoptedObjectName(name)}
  {
    var c := w.engine.containers[name];
    var spec := SpecOf(lib, host, name, c, orders);
    SpecNames(lib, host, name, c, orders);
    var (w1, _) := Read(w);
    ClaimOf(w1, |w1.tape|, orders, host, name);
    CreateSmooth(w1, AdoptedObjectName(name), Adopted(lib, host, c.id, spec), keepsStatus, host, name, n);
  }

  /** A smooth upsert of a claimed container adds no object. */
  lemma ClaimedAddsNothing(lib: Lib, host: string, w: World, name: string, orders: Orders, keepsStatus: bool)
    requires Fair(orders) && Consistent(w) && name in w.engine.containers && Claimed(host, w, name)
    ensures var c := w.engine.containers[name];
      var w' := Upsert(lib, host, w, c.id, SpecOf(lib, host, name, c, orders), orders, keepsStatus).0;
      w'.objects.Keys == w.objects.Keys
  {
    var c := w.engine.containers[name];
    var spec := SpecOf(lib, host, name, c, orders);
    SpecNames(lib, host, name, c, orders);
    var (w1, listed) := Read(w);
    ClaimOf(w1, |w1.tape|, orders, host, name);
    var claim := FirstClaim(w1.objects, orders.objects(|w1.tape|, w1.objects.Keys), host, name);
    RefreshGrows(w1, claim.value, host, c.id, lib.hash(spec));
  }

  lemma FreeNamesLeft(w: World, w': World, host: string, name: string, names: seq<string>, rest: seq<string>)
    requires FreeNames(w, host, names) && names == [name] + rest && name !in rest && Grown(w, w')
    requires w'.objects.Keys <= w.objects.Keys + (if Claimed(host, w, name) then {} else {AdoptedObjectName(name)})
    requires Wanted(w, names, name)
    ensures FreeNames(w', host, rest)
  {
    forall a | Wanted(w', rest, a) && !Claimed(host, w', a)
      ensures Wanted(w, names, a) && !Claimed(host, w, a) && AdoptedObjectName(a) !in w'.objects
    {
      assert Wanted(w, names, a);
      if Claimed(host, w, a) {
        StillClaimed(w, w', host, a);
      }
    }
  }

  lemma FirstStep(lib: Lib, host: string, w: World, name: string, names: seq<string>, rest: seq<string>,
                  orders: Orders, keepsStatus: bool, n: nat)
    requires Fair(orders) && Consistent(w) && FreeNames(w, host, names) && Smooth(w, n + 4)
    requires names == [name] + rest && name !in rest && Wanted(w, names, name)
    ensures var (w', ok) := Upserted(lib, host, w, name, orders, keepsStatus);
      ok && Smooth(w', n) && Grown(w, w') && Claimed(host, w', name) && FreeNames(w', host, rest)
  {
    var w1 := Await(w).0;
    var c := w.engine.containers[name];
    assert Grown(w, w1) && Grown(w1, w);
    if Claimed(host, w, name) {
      StillClaimed(w, w1, host, name);
      ClaimedUpsert(lib, host, w1, name, orders, keepsStatus, n);
      ClaimedAddsNothing(lib, host, w1, name, orders, keepsStatus);
    } else {
      if Claimed(host, w1, name) {
        StillClaimed(w1, w, host, name);
      }
      FreeUpsert(lib, host, w1, name, orders, keepsStatus, n);
    }
    UpsertKeeps(lib, host, w1, c.id, SpecOf(lib, host, name, c, orders), orders, keepsStatus);
    var w' := Upserted(lib, host, w, name, orders, keepsStatus).0;
    if Claimed(host, w, name) {
      StillClaimed(w, w', host, name);
    }
    FreeNamesLeft(w, w', host, name, names, rest);
  }

  lemma SkipsUnwanted(lib: Lib, host: string, w: World, names: seq<string>, orders: Orders, keepsStatus: bool)
    requires names != [] && !Wanted(w, names, names[0])
    ensures DiscoverFrom(lib, host, w, names, orders, keepsStatus) ==
            DiscoverFrom(lib, host, w, names[1..], orders, keepsStatus)
  {
  }

  lemma ClaimedTail(w: World, host: string, names: seq<string>)
    requires names != [] && ClaimedAll(w, host, names[1..])
    requires Wanted(w, names, names[0]) ==> Claimed(host, w, names[0])
    ensures ClaimedAll(w, host, names)
  {
    WantedTail(w, names);
  }

  lemma FreeTail(w: World, host: string, names: seq<string>)
    requires names != [] && FreeNames(w, host, names)
    ensures FreeNames(w, host, names[1..])
  {
    WantedTail(w, names);
  }

  /** The first smooth pass claims every container with the label. */
  lemma {:induction false} FirstPass(
    lib: Lib, host: string, w: World, names: seq<string>, orders: Orders, keepsStatus: bool)
    requires Fair(orders) && Consistent(w) && Distinct(names) && FreeNames(w, host, names)
    requires Smooth(w, 4 * |names|)
    ensures var (w', ok) := DiscoverFrom(lib, host, w, names, orders, keepsStatus);
      ok && w'.engine == w.engine && ClaimedAll(w', host, names)
    decreases |names|
  {
    if names != [] {
      var rest := names[1..];
      if Wanted(w, names, names[0]) {
        assert names == [names[0]] + rest;
        FirstStep(lib, host, w, names[0], names, rest, orders, keepsStatus, 4 * |rest|);
        DiscoverUnfolds(lib, host, w, names, orders, keepsStatus);
        var v := Upserted(lib, host, w, names[0], orders, keepsStatus).0;
        FirstPass(lib, host, v, rest, orders, keepsStatus);
        DiscoverFromKeeps(lib, host, v, rest, orders, keepsStatus);
        StillClaimed(v, DiscoverFrom(lib, host, v, rest, orders, keepsStatus).0, host, names[0]);
      } else {
        FreeTail(w, host, names);
        SkipsUnwanted(lib, host, w, names, orders, keepsStatus);
        FirstPass(lib, host, w, rest, orders, keepsStatus);
      }
      ClaimedTail(DiscoverFrom(lib, host, w, names, orders, keepsStatus).0, host, names);
    }
  }

  // ---- The main results ----

  /** Calls that all succeed, more than a discovery pass needs. */
  function Undisturbed(w: World): (v: World)
    ensures v == w.(tape := v.tape) && Smooth(v, 1 + 4 * |w.engine.containers|)
  {
    w.(tape := seq(1 + 4 * |w.engine.containers|, _ => Done))
  }

  /** A smooth discovery pass. */
  function Pass(lib: Lib, host: string, w: World, orders: Orders, keepsStatus: bool): (World, bool) {
    Discover(lib, host, Undisturbed(w), orders, keepsStatus)
  }

  lemma PassLists(lib: Lib, host: string, w: World, orders: Orders, keepsStatus: bool)
    ensures var v := Await(Undisturbed(w)).0;
      && v == w.(tape := v.tape) && Smooth(v, 4 * |w.engine.containers|)
      && Pass(lib, host, w, orders, keepsStatus) ==
         DiscoverFrom(lib, host, v, orders.containers(w.engine.containers.Keys), orders, keepsStatus)
  {
  }

  lemma {:induction false} ListedOnce(names: seq<string>, s: set<string>)
    requires Lists(names, s)
    ensures |names| == |s|
    decreases |names|
  {
    if names == [] {
      assert s == {};
    } else {
      var rest := names[1..];
      assert names == [names[0]] + rest;
      assert names[0] !in rest;
      assert forall n :: n in rest <==> n in s - {names[0]};
      ListedOnce(rest, s - {names[0]});
    }
  }

  lemma ListedNames(orders: Orders, keys: set<string>)
    requires Fair(orders)
    ensures var names := orders.containers(keys);
      Distinct(names) && |names| == |keys| && forall name :: name in names <==> name in keys
  {
    assert Lists(orders.containers(keys), keys);
    ListedOnce(orders.containers(keys), keys);
  }

  ghost predicate ClaimedHost(w: World, host: string) {
    forall name :: name in w.engine.containers && Adoptable(w.engine.containers[name]) ==> Claimed(host, w, name)
  }

  ghost predicate SettledHost(lib: Lib, w: World, host: string, orders: Orders) {
    forall name :: name in w.engine.containers && Adoptable(w.engine.containers[name]) ==>
      Settled(lib, host, w, name, orders)
  }

  lemma SameFreeNames(w: World, w': World, host: string, names: seq<string>)
    requires FreeNames(w, host, names) && w'.objects == w.objects && w'.engine == w.engine
    ensures FreeNames(w', host, names)
  {
    forall name ensures Claimed(host, w', name) <==> Claimed(host, w, name) {
      if Claimed(host, w, name) {
        var key :| key in w.objects && Claims(w.objects[key], host, name);
        assert Claims(w'.objects[key], host, name);
      }
      if Claimed(host, w', name) {
        var key :| key in w'.objects && Claims(w'.objects[key], host, name);
        assert Claims(w.objects[key], host, name);
      }
    }
    assert forall name :: Wanted(w', names, name) ==> Wanted(w, names, name);
  }

  lemma PassClaims(lib: Lib, host: string, w: World, orders: Orders, keepsStatus: bool)
    requires Fair(orders) && Consistent(w) && FreeNames(w, host, orders.containers(w.engine.containers.Keys))
    ensures var (w', ok) := Pass(lib, host, w, orders, keepsStatus); ok && Grown(w, w') && ClaimedHost(w', host)
  {
    var names := orders.containers(w.engine.containers.Keys);
    ListedNames(orders, w.engine.containers.Keys);
    var w0 := Await(Undisturbed(w)).0;
    PassLists(lib, host, w, orders, keepsStatus);
    SameFreeNames(w, w0, host, names);
    FirstPass(lib, host, w0, names, orders, keepsStatus);
    DiscoverFromKeeps(lib, host, w0, names, orders, keepsStatus);
    var w' := Pass(lib, host, w, orders, keepsStatus).0;
    forall name | name in w'.engine.containers && Adoptable(w'.engine.containers[name])
      ensures Claimed(host, w', name)
    {
      assert Wanted(w', names, name);
    }
  }

  lemma PassSettles(lib: Lib, host: string, w: World, orders: Orders, keepsStatus: bool)
    requires Fair(orders) && Consistent(w) && ClaimedHost(w, host)
    ensures var (w', ok) := Pass(lib, host, w, orders, keepsStatus);
      ok && Grown(w, w') && SettledHost(lib, w', host, orders)
  {
    var names := orders.containers(w.engine.containers.Keys);
    ListedNames(orders, w.engine.containers.Keys);
    var w0 := Await(Undisturbed(w)).0;
    PassLists(lib, host, w, orders, keepsStatus);
    forall name | Wanted(w0, names, name) ensures Claimed(host, w0, name) {
      assert Grown(w, w0);
      StillClaimed(w, w0, host, name);
    }
    ClaimedPass(lib, host, w0, names, orders, keepsStatus);
    DiscoverFromKeeps(lib, host, w0, names, orders, keepsStatus);
    var w' := Pass(lib, host, w, orders, keepsStatus).0;
    forall name | name in w'.engine.containers && Adoptable(w'.engine.containers[name])
      ensures Settled(lib, host, w', name, orders)
    {
      assert Wanted(w', names, name);
    }
  }

  /** Settled in one listing order is settled in every other one, and leaves nothing to write. */
  lemma SettledIsIdle(lib: Lib, host: string, w: World, orders: Orders, others: Orders, keepsStatus: bool)
    requires Fair(orders) && Fair(others) && SingleClaims(w, host) && SettledHost(lib, w, host, orders)
    ensures var w' := Discover(lib, host, w, others, keepsStatus).0; w'.writes == w.writes && w'.objects == w.objects
  {
    var (w0, listed) := Read(w);
    if listed {
      var names := others.containers(w0.engine.containers.Keys);
      forall name | Wanted(w0, names, name) ensures Settled(lib, host, w0, name, others) {
        var key :| SettledAt(lib, host, w, name, orders, key);
        SpecIgnoresOrder(lib, host, name, w.engine.containers[name], orders, others);
        assert SettledAt(lib, host, w0, name, others, key);
      }
      SettledMakesNoWrites(lib, host, w0, names, others, keepsStatus);
    }
  }

  lemma TapeIsIrrelevant(lib: Lib, host: string, w: World, orders: Orders, tape: seq<Outcome>)
    requires SettledHost(lib, w, host, orders) && SingleClaims(w, host)
    ensures SettledHost(lib, w.(tape := tape), host, orders) && SingleClaims(w.(tape := tape), host)
  {
    var w' := w.(tape := tape);
    forall name | name in w'.engine.containers && Adoptable(w'.engine.containers[name])
      ensures Settled(lib, host, w', name, orders)
    {
      var key :| SettledAt(lib, host, w, name, orders, key);
      assert SettledAt(lib, host, w', name, orders, key);
    }
  }

  lemma PassKeepsClaims(lib: Lib, host: string, w: World, orders: Orders, keepsStatus: bool)
    requires Fair(orders) && Consistent(w) && SingleClaims(w, host)
    ensures SingleClaims(Pass(lib, host, w, orders, keepsStatus).0, host)
  {
    DiscoverKeeps(lib, host, Undisturbed(w), orders, keepsStatus);
  }

  /** Over an unchanged host two smooth passes leave nothing to write, whether or not the server stores
      the status of a created object: a third pass sends no write request, however its calls end. */
  lemma DiscoverySettles(
    lib: Lib, host: string, w: World, o1: Orders, o2: Orders, o3: Orders, keepsStatus: bool, tape: seq<Outcome>)
    requires Fair(o1) && Fair(o2) && Fair(o3) && Consistent(w) && SingleClaims(w, host)
    requires FreeNames(w, host, o1.containers(w.engine.containers.Keys))
    ensures var (w1, ok1) := Pass(lib, host, w, o1, keepsStatus);
      var (w2, ok2) := Pass(lib, host, w1, o2, keepsStatus);
      var w3 := Discover(lib, host, w2.(tape := tape), o3, keepsStatus).0;
      ok1 && ok2 && w3.writes == w2.writes && w3.objects == w2.objects
  {
    PassClaims(lib, host, w, o1, keepsStatus);
    PassKeepsClaims(lib, host, w, o1, keepsStatus);
    var w1 := Pass(lib, host, w, o1, keepsStatus).0;
    PassSettles(lib, host, w1, o2, keepsStatus);
    PassKeepsClaims(lib, host, w1, o2, keepsStatus);
    var w2 := Pass(lib, host, w1, o2, keepsStatus).0;
    TapeIsIrrelevant(lib, host, w2, o2, tape);
    SettledIsIdle(lib, host, w2.(tape := tape), o2, o3, keepsStatus);
  }
}
