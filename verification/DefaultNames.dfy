/** Resources that name their container by their own name, and when discovery adds a second resource for
    such a container. */
module DefaultNames {
  import opened DockerEngine
  import opened ContainerSpecs
  import opened Adoption
  import opened AdoptionProofs
  import opened ContainerModel
  import opened Discovery
  import opened DiscoveryProofs
  import opened DiscoveryLimits

  // ---- A pass over a list is a pass over its parts ----

  lemma {:induction false} DiscoverAppend(
    lib: Lib, host: string, w: World, a: seq<string>, b: seq<string>, orders: Orders, keepsStatus: bool)
    ensures DiscoverFrom(lib, host, w, a + b, orders, keepsStatus) ==
      var (v, ok) := DiscoverFrom(lib, host, w, a, orders, keepsStatus);
      if ok then DiscoverFrom(lib, host, v, b, orders, keepsStatus) else (v, false)
    decreases |a|
  {
    if a == [] {
      assert a + b == b;
    } else {
      assert (a + b)[0] == a[0] && (a + b)[1..] == a[1..] + b;
      if a[0] !in w.engine.containers || !Adoptable(w.engine.containers[a[0]]) {
        DiscoverAppend(lib, host, w, a[1..], b, orders, keepsStatus);
      } else {
        var id := w.engine.containers[a[0]].id;
        var (w1, c, err) := InspectContainer(w, ById(a[0], id));
        if err == Ok {
          var (w2, ok) := Upsert(lib, host, w1, id, SpecOf(lib, host, a[0], c.value, orders), orders, keepsStatus);
          DiscoverAppend(lib, host, w2, a[1..], b, orders, keepsStatus);
        }
      }
    }
  }

  lemma {:induction false} DiscoverSmooth(
    lib: Lib, host: string, w: World, names: seq<string>, orders: Orders, keepsStatus: bool, n: nat)
    requires Fair(orders) && Consistent(w) && Smooth(w, n + 4 * |names|)
    ensures Smooth(DiscoverFrom(lib, host, w, names, orders, keepsStatus).0, n)
    decreases |names|
  {
    if names != [] {
      if Wanted(w, names, names[0]) {
        DiscoverUnfolds(lib, host, w, names, orders, keepsStatus);
        UpsertSmooth(lib, host, w, names[0], orders, keepsStatus, n + 4 * |names[1..]|);
        UpsertedGrows(lib, host, w, names[0], orders, keepsStatus);
        var v := Upserted(lib, host, w, names[0], orders, keepsStatus).0;
        DiscoverSmooth(lib, host, v, names[1..], orders, keepsStatus, n);
      } else {
        SkipsUnwanted(lib, host, w, names, orders, keepsStatus);
        DiscoverSmooth(lib, host, w, names[1..], orders, keepsStatus, n);
      }
    }
  }

  // ---- When a claim appears ----

  lemma {:induction false} OthersLeaveUnclaimed(
    lib: Lib, host: string, w: World, names: seq<string>, orders: Orders, keepsStatus: bool, key: string)
    requires Fair(orders) && Consistent(w) && key !in names && !Claimed(host, w, key)
    ensures !Claimed(host, DiscoverFrom(lib, host, w, names, orders, keepsStatus).0, key)
    decreases |names|
  {
    if names != [] {
      assert forall n :: n in names[1..] ==> n in names;
      if Wanted(w, names, names[0]) {
        DiscoverUnfolds(lib, host, w, names, orders, keepsStatus);
        SameClaimed(w, Await(w).0, host, key);
        StillUnclaimed(lib, host, w, key, names[0], orders, keepsStatus);
        UpsertedGrows(lib, host, w, names[0], orders, keepsStatus);
        var v := Upserted(lib, host, w, names[0], orders, keepsStatus).0;
        OthersLeaveUnclaimed(lib, host, v, names[1..], orders, keepsStatus, key);
      } else {
        SkipsUnwanted(lib, host, w, names, orders, keepsStatus);
        OthersLeaveUnclaimed(lib, host, w, names[1..], orders, keepsStatus, key);
      }
    }
  }

  /** An upsert that fails because the object name is taken leaves the container without a claim. */
  lemma FailedUpsertClaimsNothing(lib: Lib, host: string, w: World, key: string, orders: Orders, keepsStatus: bool)
    requires Fair(orders) && Consistent(w) && key in w.engine.containers && Smooth(w, 4) && !Claimed(host, w, key)
    ensures var (v, ok) := Upserted(lib, host, w, key, orders, keepsStatus); !ok ==> !Claimed(host, v, key)
  {
    var w1 := Await(w).0;
    var c := w.engine.containers[key];
    var spec := SpecOf(lib, host, key, c, orders);
    SpecNames(lib, host, key, c, orders);
    SameClaimed(w, w1, host, key);
    if AdoptedObjectName(key) !in w1.objects {
      FreeUpsert(lib, host, w1, key, orders, keepsStatus, 0);
    } else {
      var (w2, _) := Read(w1);
      ClaimOf(w2, |w2.tape|, orders, host, key);
      SameClaimed(w, Upsert(lib, host, w1, c.id, spec, orders, keepsStatus).0, host, key);
    }
  }

  lemma FailedPassClaimsNothing(
    lib: Lib, host: string, w: World, names: seq<string>, orders: Orders, keepsStatus: bool, key: string)
    requires Fair(orders) && Consistent(w) && Smooth(w, 4 * |names| + 4) && key !in names
    requires key in w.engine.containers && Adoptable(w.engine.containers[key]) && !Claimed(host, w, key)
    ensures var (v, ok) := DiscoverFrom(lib, host, w, names + [key], orders, keepsStatus);
      !ok ==> !Claimed(host, v, key)
  {
    DiscoverAppend(lib, host, w, names, [key], orders, keepsStatus);
    OthersLeaveUnclaimed(lib, host, w, names, orders, keepsStatus, key);
    DiscoverFromKeeps(lib, host, w, names, orders, keepsStatus);
    DiscoverSmooth(lib, host, w, names, orders, keepsStatus, 4);
    var v := DiscoverFrom(lib, host, w, names, orders, keepsStatus).0;
    assert [key][1..] == [] && Wanted(v, [key], key);
    DiscoverUnfolds(lib, host, v, [key], orders, keepsStatus);
    FailedUpsertClaimsNothing(lib, host, v, key, orders, keepsStatus);
  }

  // ---- A second resource ----

  /** The resource relies on its own name, and its container waits for adoption. */
  ghost predicate DefaultNamed(w: World, host: string, key: string) {
    && key != "" && key in w.objects
    && w.objects[key].spec.containerName == "" && w.objects[key].spec.dockerHostRef == host
    && key in w.engine.containers && Adoptable(w.engine.containers[key]) && !Claimed(host, w, key)
  }

  /** Another resource stands for the same container of the same host. */
  ghost predicate TwiceClaimed(w: World, key: string) {
    exists other :: other in w.objects && other != key && key in w.objects
      && RuntimeName(other, w.objects[other]) == RuntimeName(key, w.objects[key])
      && w.objects[other].spec.dockerHostRef == w.objects[key].spec.dockerHostRef
  }

  /** For such a resource a claim is a second resource. */
  lemma TwiceIsClaimed(w: World, host: string, key: string, v: World)
    requires DefaultNamed(w, host, key) && Grown(w, v)
    ensures TwiceClaimed(v, key) <==> Claimed(host, v, key)
  {
    assert v.objects[key].spec == w.objects[key].spec;
    if TwiceClaimed(v, key) {
      var other :| other in v.objects && other != key
        && RuntimeName(other, v.objects[other]) == RuntimeName(key, v.objects[key])
        && v.objects[other].spec.dockerHostRef == v.objects[key].spec.dockerHostRef;
      assert Claims(v.objects[other], host, key);
    }
    if Claimed(host, v, key) {
      var other :| other in v.objects && Claims(v.objects[other], host, key);
      assert other != key;
    }
  }

  /** A list up to and including a name. */
  function UpTo(names: seq<string>, key: string): seq<string> {
    if names == [] then [] else if names[0] == key then [key] else [names[0]] + UpTo(names[1..], key)
  }

  lemma {:induction false} SplitAt(names: seq<string>, key: string) returns (i: nat)
    requires key in names && Distinct(names)
    ensures i < |names| && names[i] == key && UpTo(names, key) == names[..i] + [key] && key !in names[..i]
    ensures names == UpTo(names, key) + names[i + 1..]
  {
    if names[0] == key {
      i := 0;
    } else {
      assert names == [names[0]] + names[1..];
      var k := SplitAt(names[1..], key);
      i := k + 1;
      assert names[..i] == [names[0]] + names[1..][..k];
    }
  }

  /** A smooth pass over a list gets through exactly if its object names are free. */
  lemma ListSucceedsExactly(lib: Lib, host: string, w: World, names: seq<string>, orders: Orders, keepsStatus: bool)
    requires Fair(orders) && Consistent(w) && Distinct(names) && Smooth(w, 4 * |names|)
    ensures var (v, ok) := DiscoverFrom(lib, host, w, names, orders, keepsStatus);
      (ok <==> FreeNames(w, host, names)) && (ok ==> v.engine == w.engine && ClaimedAll(v, host, names))
  {
    SuccessNeedsFreeNames(lib, host, w, names, orders, keepsStatus);
    if FreeNames(w, host, names) {
      FirstPass(lib, host, w, names, orders, keepsStatus);
    }
  }

  lemma SecondResourceExactly(
    lib: Lib, host: string, w: World, names: seq<string>, orders: Orders, keepsStatus: bool, key: string)
    requires Fair(orders) && Consistent(w) && Distinct(names) && key in names && Smooth(w, 4 * |names|)
    requires DefaultNamed(w, host, key)
    ensures var v := DiscoverFrom(lib, host, w, names, orders, keepsStatus).0;
      Claimed(host, v, key) <==> FreeNames(w, host, UpTo(names, key))
  {
    var i := SplitAt(names, key);
    var first, rest := UpTo(names, key), names[i + 1..];
    assert Distinct(first);
    DiscoverAppend(lib, host, w, first, rest, orders, keepsStatus);
    ListSucceedsExactly(lib, host, w, first, orders, keepsStatus);
    var (v, ok) := DiscoverFrom(lib, host, w, first, orders, keepsStatus);
    if ok {
      assert Wanted(v, first, key);
      DiscoverFromKeeps(lib, host, w, first, orders, keepsStatus);
      DiscoverFromKeeps(lib, host, v, rest, orders, keepsStatus);
      StillClaimed(v, DiscoverFrom(lib, host, v, rest, orders, keepsStatus).0, host, key);
    } else {
      FailedPassClaimsNothing(lib, host, w, names[..i], orders, keepsStatus, key);
    }
  }

  lemma FreeNamesAlike(w: World, v: World, host: string, names: seq<string>)
    requires v.objects == w.objects && v.engine == w.engine
    ensures FreeNames(v, host, names) <==> FreeNames(w, host, names)
  {
    if FreeNames(w, host, names) {
      SameFreeNames(w, v, host, names);
    }
    if FreeNames(v, host, names) {
      SameFreeNames(v, w, host, names);
    }
  }

  /** A smooth discovery pass adds a second resource for the container of a resource that relies on its own
      name exactly if the object names that adoption takes up to this container are free and distinct. */
  lemma DefaultNameIsAdoptedTwice(lib: Lib, host: string, w: World, key: string, orders: Orders, keepsStatus: bool)
    requires Fair(orders) && Consistent(w) && DefaultNamed(w, host, key)
    ensures TwiceClaimed(Pass(lib, host, w, orders, keepsStatus).0, key) <==>
            FreeNames(w, host, UpTo(orders.containers(w.engine.containers.Keys), key))
  {
    var names := orders.containers(w.engine.containers.Keys);
    ListedNames(orders, w.engine.containers.Keys);
    PassLists(lib, host, w, orders, keepsStatus);
    var w0 := Await(Undisturbed(w)).0;
    SameClaimed(w, w0, host, key);
    SecondResourceExactly(lib, host, w0, names, orders, keepsStatus, key);
    DiscoverFromKeeps(lib, host, w0, names, orders, keepsStatus);
    TwiceIsClaimed(w0, host, key, Pass(lib, host, w, orders, keepsStatus).0);
    FreeNamesAlike(w, w0, host, UpTo(names, key));
  }

  /** If the name of the resource is already a sanitised one, the resource itself occupies the name that
      adoption would take: no second one appears, and no pass over the host gets through, however its
      calls end. The same holds again after the pass. */
  lemma SanitisedNameBlocks(lib: Lib, host: string, w: World, key: string, orders: Orders, keepsStatus: bool)
    requires Fair(orders) && Consistent(w) && DefaultNamed(w, host, key) && ObjectName(key)
    ensures var (v, ok) := Discover(lib, host, w, orders, keepsStatus);
      !ok && Consistent(v) && DefaultNamed(v, host, key) && !TwiceClaimed(v, key)
  {
    AdoptedNameIsStable(key);
    TakenNameBlocks(lib, host, w, key, orders, keepsStatus);
    DiscoverKeeps(lib, host, w, orders, keepsStatus);
    TwiceIsClaimed(w, host, key, Discover(lib, host, w, orders, keepsStatus).0);
  }

  /** A name with a dot is not a sanitised one: the only container of a host, called a.b like the resource
      that stands for it, gets a second resource called a-b. */
  lemma DottedNameIsAdoptedTwice(lib: Lib, host: string, w: World, orders: Orders, keepsStatus: bool)
    requires Fair(orders) && Consistent(w) && DefaultNamed(w, host, "a.b")
    requires w.engine.containers.Keys == {"a.b"} && "a-b" !in w.objects
    ensures var (v, ok) := Pass(lib, host, w, orders, keepsStatus); ok && TwiceClaimed(v, "a.b")
  {
    ClashingNames();
    var names := orders.containers(w.engine.containers.Keys);
    ListedNames(orders, w.engine.containers.Keys);
    var i := SplitAt(names, "a.b");
    forall n | n in names ensures n == "a.b" {}
    assert FreeNames(w, host, UpTo(names, "a.b")) && FreeNames(w, host, names);
    DefaultNameIsAdoptedTwice(lib, host, w, "a.b", orders, keepsStatus);
    SmoothPassSucceeds(lib, host, w, orders, keepsStatus);
  }

  // ---- Resources that name their container ----

  /** Every resource of the host names its container. */
  ghost predicate Explicit(w: World, host: string) {
    forall k :: k in w.objects && w.objects[k].spec.dockerHostRef == host ==> w.objects[k].spec.containerName != ""
  }

  predicate SameContainer(w: World, host: string, a: string, b: string) {
    && a in w.objects && b in w.objects
    && w.objects[a].spec.dockerHostRef == host && w.objects[b].spec.dockerHostRef == host
    && RuntimeName(a, w.objects[a]) == RuntimeName(b, w.objects[b])
  }

  /** No two resources of the host stand for the same container. */
  ghost predicate OneEach(w: World, host: string) {
    forall a, b :: SameContainer(w, host, a, b) ==> a == b
  }

  lemma ExplicitIsOneEach(w: World, host: string)
    requires Explicit(w, host)
    ensures OneEach(w, host) <==> SingleClaims(w, host)
  {
    if OneEach(w, host) {
      forall a, b, name | a in w.objects && b in w.objects &&
                          Claims(w.objects[a], host, name) && Claims(w.objects[b], host, name)
        ensures a == b
      {
        assert SameContainer(w, host, a, b);
      }
    }
    if SingleClaims(w, host) {
      forall a, b | SameContainer(w, host, a, b) ensures a == b {
        var name := w.objects[a].spec.containerName;
        assert Claims(w.objects[a], host, name) && Claims(w.objects[b], host, name);
      }
    }
  }

  lemma UpsertStaysExplicit(lib: Lib, host: string, w: World, id: nat, spec: Spec, orders: Orders, keepsStatus: bool)
    requires Fair(orders) && Consistent(w) && Explicit(w, host) && spec.containerName != ""
    ensures var v := Upsert(lib, host, w, id, spec, orders, keepsStatus).0; Explicit(v, host) && Grown(w, v)
  {
    UpsertKeeps(lib, host, w, id, spec, orders, keepsStatus);
    UpsertAdds(lib, host, w, id, spec, orders, keepsStatus);
  }

  lemma {:induction false} DiscoverStaysExplicit(
    lib: Lib, host: string, w: World, names: seq<string>, orders: Orders, keepsStatus: bool)
    requires Fair(orders) && Consistent(w) && Explicit(w, host) && "" !in w.engine.containers
    ensures Explicit(DiscoverFrom(lib, host, w, names, orders, keepsStatus).0, host)
    decreases |names|
  {
    if names != [] {
      if names[0] !in w.engine.containers || !Adoptable(w.engine.containers[names[0]]) {
        DiscoverStaysExplicit(lib, host, w, names[1..], orders, keepsStatus);
      } else {
        var id := w.engine.containers[names[0]].id;
        var (w1, c, err) := InspectContainer(w, ById(names[0], id));
        if err == Ok {
          var spec := SpecOf(lib, host, names[0], c.value, orders);
          SpecNames(lib, host, names[0], c.value, orders);
          UpsertStaysExplicit(lib, host, w1, id, spec, orders, keepsStatus);
          var (w2, ok) := Upsert(lib, host, w1, id, spec, orders, keepsStatus);
          DiscoverStaysExplicit(lib, host, w2, names[1..], orders, keepsStatus);
        }
      }
    }
  }

  /** Where every resource of the host names its container, no pass, however its calls end, makes two
      resources stand for the same container. */
  lemma ExplicitNamesStayUnique(lib: Lib, host: string, w: World, orders: Orders, keepsStatus: bool)
    requires Fair(orders) && Consistent(w) && Explicit(w, host) && OneEach(w, host) && "" !in w.engine.containers
    ensures var v := Discover(lib, host, w, orders, keepsStatus).0; Explicit(v, host) && OneEach(v, host)
  {
    ExplicitIsOneEach(w, host);
    DiscoverKeeps(lib, host, w, orders, keepsStatus);
    var (w1, listed) := Read(w);
    if listed {
      DiscoverStaysExplicit(lib, host, w1, orders.containers(w1.engine.containers.Keys), orders, keepsStatus);
    }
    ExplicitIsOneEach(Discover(lib, host, w, orders, keepsStatus).0, host);
  }
}
