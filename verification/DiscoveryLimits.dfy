/** Exactly when discovery gets through, and two ways in which it does not. */
module DiscoveryLimits {
  import opened Text
  import opened ContainerSpecs
  import opened Adoption
  import opened AdoptionProofs
  import opened ContainerModel
  import opened Discovery
  import opened DiscoveryProofs

  /** What an upsert adds has the spec of its container. */
  lemma UpsertAdds(lib: Lib, host: string, w: World, id: nat, spec: Spec, orders: Orders, keepsStatus: bool)
    requires Fair(orders) && Consistent(w)
    ensures var v := Upsert(lib, host, w, id, spec, orders, keepsStatus).0;
      forall key :: key in v.objects ==> key in w.objects || v.objects[key].spec == spec
  {
    var (w1, listed) := Read(w);
    if listed {
      ClaimOf(w1, |w1.tape|, orders, host, spec.containerName);
      var claim := FirstClaim(w1.objects, orders.objects(|w1.tape|, w1.objects.Keys), host, spec.containerName);
      if claim.Some? {
        RefreshGrows(w1, claim.value, host, id, lib.hash(spec));
      }
    }
  }

  lemma NewClaims(w: World, v: World, host: string, name: string, spec: Spec)
    requires !Claimed(host, w, name) && spec.containerName != name
    requires forall key :: key in w.objects ==> key in v.objects && Retained(w.objects[key], v.objects[key])
    requires forall key :: key in v.objects ==> key in w.objects || v.objects[key].spec == spec
    ensures !Claimed(host, v, name)
  {
    forall key | key in v.objects ensures !Claims(v.objects[key], host, name) {
      if key in w.objects {
        assert !Claims(w.objects[key], host, name) && Retained(w.objects[key], v.objects[key]);
      }
    }
  }

  /** A container without a claim gets none from the upsert of another one. */
  lemma StillUnclaimed(lib: Lib, host: string, w: World, name: string, other: string, orders: Orders, keepsStatus: bool)
    requires Fair(orders) && Consistent(w) && other in w.engine.containers && name != other && !Claimed(host, w, name)
    ensures !Claimed(host, Upserted(lib, host, w, other, orders, keepsStatus).0, name)
  {
    var c := w.engine.containers[other];
    var spec := SpecOf(lib, host, other, c, orders);
    SpecNames(lib, host, other, c, orders);
    var w1 := Await(w).0;
    var v := Upsert(lib, host, w1, c.id, spec, orders, keepsStatus).0;
    UpsertKeeps(lib, host, w1, c.id, spec, orders, keepsStatus);
    UpsertAdds(lib, host, w1, c.id, spec, orders, keepsStatus);
    NewClaims(w, v, host, name, spec);
  }

  /** An upsert that gives a container its claim, or succeeds for one without, took a free object name. */
  lemma TookFreeName(lib: Lib, host: string, w: World, name: string, orders: Orders, keepsStatus: bool)
    requires Fair(orders) && Consistent(w) && name in w.engine.containers && !Claimed(host, w, name)
    ensures var (v, ok) := Upserted(lib, host, w, name, orders, keepsStatus);
      ok || Claimed(host, v, name) ==> AdoptedObjectName(name) !in w.objects && AdoptedObjectName(name) in v.objects
  {
    var c := w.engine.containers[name];
    SpecNames(lib, host, name, c, orders);
    var w1 := Await(w).0;
    var (w2, listed) := Read(w1);
    ClaimOf(w2, |w2.tape|, orders, host, name);
    var (v, ok) := Upserted(lib, host, w, name, orders, keepsStatus);
    if Claimed(host, v, name) {
      var key :| key in v.objects && Claims(v.objects[key], host, name);
    }
  }

  /** If the names of the rest are free after the upsert of the first container, all were free before. */
  lemma FreeNamesBefore(host: string, w: World, v: World, name: string, names: seq<string>)
    requires names != [] && names[0] == name && name !in names[1..] && Grown(w, v) && FreeNames(v, host, names[1..])
    requires !Claimed(host, w, name) ==> AdoptedObjectName(name) !in w.objects && AdoptedObjectName(name) in v.objects
    requires forall a :: Wanted(w, names[1..], a) && !Claimed(host, w, a) ==> !Claimed(host, v, a)
    ensures FreeNames(w, host, names)
  {
    WantedTail(w, names);
    forall a | Wanted(w, names, a) && !Claimed(host, w, a) && a != name
      ensures Wanted(v, names[1..], a) && !Claimed(host, v, a)
      ensures AdoptedObjectName(a) !in w.objects && AdoptedObjectName(a) !in v.objects
    {
      assert Wanted(w, names[1..], a) && Wanted(v, names[1..], a);
    }
  }

  lemma RefreshSmooth(w: World, key: string, host: string, id: nat, hash: string, n: nat)
    requires Smooth(w, n + 2)
    ensures Smooth(Refresh(w, key, host, id, hash).0, n)
  {
    if key in w.objects {
      var marked := Marked(w.objects[key], host, id);
      var (w1, ok) := if marked != w.objects[key] then Put(w, key, marked) else (w, true);
      assert Smooth(w1, n + 1);
    }
  }

  lemma UpsertSmooth(lib: Lib, host: string, w: World, name: string, orders: Orders, keepsStatus: bool, n: nat)
    requires Smooth(w, n + 4) && name in w.engine.containers
    ensures Smooth(Upserted(lib, host, w, name, orders, keepsStatus).0, n)
  {
    var c := w.engine.containers[name];
    var spec := SpecOf(lib, host, name, c, orders);
    var w1 := Await(w).0;
    var (w2, listed) := Read(w1);
    assert Smooth(w2, n + 2);
    var claim := FirstClaim(w2.objects, orders.objects(|w2.tape|, w2.objects.Keys), host, spec.containerName);
    if claim.Some? {
      RefreshSmooth(w2, claim.value, host, c.id, lib.hash(spec), n);
    }
  }

  lemma UpsertedGrows(lib: Lib, host: string, w: World, name: string, orders: Orders, keepsStatus: bool)
    requires Fair(orders) && Consistent(w) && name in w.engine.containers
    ensures Grown(w, Upserted(lib, host, w, name, orders, keepsStatus).0)
  {
    var c := w.engine.containers[name];
    UpsertKeeps(lib, host, Await(w).0, c.id, SpecOf(lib, host, name, c, orders), orders, keepsStatus);
  }

  /** The upsert of the first container of a pass that gets through. */
  lemma FirstUpsert(lib: Lib, host: string, w: World, names: seq<string>, orders: Orders, keepsStatus: bool)
    requires Fair(orders) && Consistent(w) && names != [] && names[0] !in names[1..] && Wanted(w, names, names[0])
    requires DiscoverFrom(lib, host, w, names, orders, keepsStatus).1
    ensures var v := Upserted(lib, host, w, names[0], orders, keepsStatus).0;
      && Grown(w, v)
      && DiscoverFrom(lib, host, v, names[1..], orders, keepsStatus).1
      && (!Claimed(host, w, names[0]) ==>
            AdoptedObjectName(names[0]) !in w.objects && AdoptedObjectName(names[0]) in v.objects)
      && (forall a :: Wanted(w, names[1..], a) && !Claimed(host, w, a) ==> !Claimed(host, v, a))
  {
    var name := names[0];
    DiscoverUnfolds(lib, host, w, names, orders, keepsStatus);
    UpsertedGrows(lib, host, w, name, orders, keepsStatus);
    if !Claimed(host, w, name) {
      TookFreeName(lib, host, w, name, orders, keepsStatus);
    }
    forall a | Wanted(w, names[1..], a) && !Claimed(host, w, a)
      ensures !Claimed(host, Upserted(lib, host, w, name, orders, keepsStatus).0, a)
    {
      StillUnclaimed(lib, host, w, a, name, orders, keepsStatus);
    }
  }

  lemma FreeNamesCons(w: World, host: string, names: seq<string>)
    requires names != [] && !Wanted(w, names, names[0]) && FreeNames(w, host, names[1..])
    ensures FreeNames(w, host, names)
  {
    WantedTail(w, names);
  }

  lemma {:induction false} SuccessNeedsFreeNames(
    lib: Lib, host: string, w: World, names: seq<string>, orders: Orders, keepsStatus: bool)
    requires Fair(orders) && Consistent(w) && Distinct(names)
    ensures DiscoverFrom(lib, host, w, names, orders, keepsStatus).1 ==> FreeNames(w, host, names)
    decreases |names|
  {
    if names != [] && DiscoverFrom(lib, host, w, names, orders, keepsStatus).1 {
      if Wanted(w, names, names[0]) {
        FirstUpsert(lib, host, w, names, orders, keepsStatus);
        var v := Upserted(lib, host, w, names[0], orders, keepsStatus).0;
        SuccessNeedsFreeNames(lib, host, v, names[1..], orders, keepsStatus);
        FreeNamesBefore(host, w, v, names[0], names);
      } else {
        SkipsUnwanted(lib, host, w, names, orders, keepsStatus);
        SuccessNeedsFreeNames(lib, host, w, names[1..], orders, keepsStatus);
        FreeNamesCons(w, host, names);
      }
    }
  }

  /** A smooth pass gets through exactly if the object names that adoption would take are free and
      different from each other. */
  lemma SmoothPassSucceeds(lib: Lib, host: string, w: World, orders: Orders, keepsStatus: bool)
    requires Fair(orders) && Consistent(w)
    ensures Pass(lib, host, w, orders, keepsStatus).1 <==>
            FreeNames(w, host, orders.containers(w.engine.containers.Keys))
  {
    var names := orders.containers(w.engine.containers.Keys);
    ListedNames(orders, w.engine.containers.Keys);
    var w0 := Await(Undisturbed(w)).0;
    PassLists(lib, host, w, orders, keepsStatus);
    if Pass(lib, host, w, orders, keepsStatus).1 {
      SuccessNeedsFreeNames(lib, host, w0, names, orders, keepsStatus);
      SameFreeNames(w0, w, host, names);
    }
    if FreeNames(w, host, names) {
      PassClaims(lib, host, w, orders, keepsStatus);
    }
  }

  lemma DashedSnoc(s: string, c: char)
    ensures Dashed(s + [c]) ==
      var b := Dashed(s);
      if NameChar(c) then b + [c] else if b != [] && b[|b| - 1] == '-' then b else b + ['-']
  {
    assert (s + [c])[..|s|] == s;
  }

  lemma DashedDot()
    ensures Dashed("a.b") == "a-b"
  {
    assert Dashed("") == "";
    DashedSnoc("", 'a');
    assert "" + ['a'] == "a";
    DashedSnoc("a", '.');
    assert "a" + ['.'] == "a.";
    DashedSnoc("a.", 'b');
    assert "a." + ['b'] == "a.b";
  }

  lemma ClashingNames()
    ensures AdoptedObjectName("a.b") == "a-b" && AdoptedObjectName("a-b") == "a-b"
  {
    AdoptedNameIsStable("a-b");
    DashedDot();
    assert ToLower("a.b") == "a.b";
  }

  // ---- What keeps every pass from getting through ----

  /** No pass gets through, however its calls end, unless the object names are free and distinct. */
  lemma DiscoverNeedsFreeNames(lib: Lib, host: string, w: World, orders: Orders, keepsStatus: bool)
    requires Fair(orders) && Consistent(w)
    ensures Discover(lib, host, w, orders, keepsStatus).1 ==>
            FreeNames(w, host, orders.containers(w.engine.containers.Keys))
  {
    var (w1, listed) := Read(w);
    if Discover(lib, host, w, orders, keepsStatus).1 {
      var names := orders.containers(w.engine.containers.Keys);
      ListedNames(orders, w.engine.containers.Keys);
      SuccessNeedsFreeNames(lib, host, w1, names, orders, keepsStatus);
      SameFreeNames(w1, w, host, names);
    }
  }

  /** The container waits for adoption, and its object name is taken. */
  ghost predicate Taken(w: World, host: string, name: string) {
    && name in w.engine.containers && Adoptable(w.engine.containers[name])
    && !Claimed(host, w, name) && AdoptedObjectName(name) in w.objects
  }

  /** Two containers wait for adoption under the same object name, or one of them still does while the
      name is taken. */
  ghost predicate Clash(w: World, host: string, a: string, b: string) {
    && a != b && AdoptedObjectName(a) == AdoptedObjectName(b)
    && a in w.engine.containers && Adoptable(w.engine.containers[a])
    && b in w.engine.containers && Adoptable(w.engine.containers[b])
    && ((!Claimed(host, w, a) && !Claimed(host, w, b)) || Taken(w, host, a) || Taken(w, host, b))
  }

  lemma UpsertKeepsTaken(
    lib: Lib, host: string, w: World, other: string, orders: Orders, keepsStatus: bool, name: string)
    requires Fair(orders) && Consistent(w) && other in w.engine.containers && Taken(w, host, name)
    ensures Taken(Upserted(lib, host, w, other, orders, keepsStatus).0, host, name)
  {
    UpsertedGrows(lib, host, w, other, orders, keepsStatus);
    if other == name {
      TookFreeName(lib, host, w, name, orders, keepsStatus);
    } else {
      StillUnclaimed(lib, host, w, name, other, orders, keepsStatus);
    }
  }

  lemma UpsertKeepsClash(
    lib: Lib, host: string, w: World, other: string, orders: Orders, keepsStatus: bool, a: string, b: string)
    requires Fair(orders) && Consistent(w) && other in w.engine.containers && Clash(w, host, a, b)
    ensures Clash(Upserted(lib, host, w, other, orders, keepsStatus).0, host, a, b)
  {
    UpsertedGrows(lib, host, w, other, orders, keepsStatus);
    if Taken(w, host, a) {
      UpsertKeepsTaken(lib, host, w, other, orders, keepsStatus, a);
    } else if Taken(w, host, b) {
      UpsertKeepsTaken(lib, host, w, other, orders, keepsStatus, b);
    } else {
      if a != other {
        StillUnclaimed(lib, host, w, a, other, orders, keepsStatus);
      } else {
        TookFreeName(lib, host, w, a, orders, keepsStatus);
      }
      if b != other {
        StillUnclaimed(lib, host, w, b, other, orders, keepsStatus);
      } else {
        TookFreeName(lib, host, w, b, orders, keepsStatus);
      }
    }
  }

  lemma SameClaimed(w: World, v: World, host: string, key: string)
    requires v.objects == w.objects
    ensures Claimed(host, v, key) <==> Claimed(host, w, key)
  {
  }

  lemma {:induction false} PassKeepsTaken(
    lib: Lib, host: string, w: World, names: seq<string>, orders: Orders, keepsStatus: bool, name: string)
    requires Fair(orders) && Consistent(w) && Taken(w, host, name)
    ensures Taken(DiscoverFrom(lib, host, w, names, orders, keepsStatus).0, host, name)
    decreases |names|
  {
    if names != [] {
      if Wanted(w, names, names[0]) {
        DiscoverUnfolds(lib, host, w, names, orders, keepsStatus);
        SameClaimed(w, Await(w).0, host, name);
        UpsertKeepsTaken(lib, host, w, names[0], orders, keepsStatus, name);
        UpsertedGrows(lib, host, w, names[0], orders, keepsStatus);
        var v := Upserted(lib, host, w, names[0], orders, keepsStatus).0;
        PassKeepsTaken(lib, host, v, names[1..], orders, keepsStatus, name);
      } else {
        PassKeepsTaken(lib, host, w, names[1..], orders, keepsStatus, name);
      }
    }
  }

  lemma {:induction false} PassKeepsClash(
    lib: Lib, host: string, w: World, names: seq<string>, orders: Orders, keepsStatus: bool, a: string, b: string)
    requires Fair(orders) && Consistent(w) && Clash(w, host, a, b)
    ensures Clash(DiscoverFrom(lib, host, w, names, orders, keepsStatus).0, host, a, b)
    decreases |names|
  {
    if names != [] {
      if Wanted(w, names, names[0]) {
        DiscoverUnfolds(lib, host, w, names, orders, keepsStatus);
        SameClaimed(w, Await(w).0, host, a);
        SameClaimed(w, Await(w).0, host, b);
        UpsertKeepsClash(lib, host, w, names[0], orders, keepsStatus, a, b);
        UpsertedGrows(lib, host, w, names[0], orders, keepsStatus);
        var v := Upserted(lib, host, w, names[0], orders, keepsStatus).0;
        PassKeepsClash(lib, host, v, names[1..], orders, keepsStatus, a, b);
      } else {
        PassKeepsClash(lib, host, w, names[1..], orders, keepsStatus, a, b);
      }
    }
  }

  /** A container whose object name is taken keeps every pass from getting through, however its calls
      end, and is itself never claimed: the same holds again after the pass. */
  lemma TakenNameBlocks(lib: Lib, host: string, w: World, name: string, orders: Orders, keepsStatus: bool)
    requires Fair(orders) && Consistent(w) && Taken(w, host, name)
    ensures var (v, ok) := Discover(lib, host, w, orders, keepsStatus); !ok && Consistent(v) && Taken(v, host, name)
  {
    var names := orders.containers(w.engine.containers.Keys);
    ListedNames(orders, w.engine.containers.Keys);
    assert Wanted(w, names, name);
    DiscoverNeedsFreeNames(lib, host, w, orders, keepsStatus);
    DiscoverKeeps(lib, host, w, orders, keepsStatus);
    var w1 := Await(w).0;
    SameClaimed(w, w1, host, name);
    PassKeepsTaken(lib, host, w1, names, orders, keepsStatus, name);
  }

  lemma ClashIsNotFree(w: World, host: string, a: string, b: string, names: seq<string>)
    requires Clash(w, host, a, b) && a in names && b in names
    ensures !FreeNames(w, host, names)
  {
    assert Wanted(w, names, a) && Wanted(w, names, b);
  }

  lemma DiscoverKeepsClash(
    lib: Lib, host: string, w: World, a: string, b: string, orders: Orders, keepsStatus: bool)
    requires Fair(orders) && Consistent(w) && Clash(w, host, a, b)
    ensures Clash(Discover(lib, host, w, orders, keepsStatus).0, host, a, b)
  {
    var (w1, listed) := Read(w);
    SameClaimed(w, w1, host, a);
    SameClaimed(w, w1, host, b);
    if listed {
      PassKeepsClash(lib, host, w1, orders.containers(w1.engine.containers.Keys), orders, keepsStatus, a, b);
    }
  }

  /** Two containers whose names are sanitised to the same one keep every pass from getting through,
      however its calls end, and no pass claims the second of them: the same holds again after the pass. */
  lemma ClashBlocksDiscovery(
    lib: Lib, host: string, w: World, a: string, b: string, orders: Orders, keepsStatus: bool)
    requires Fair(orders) && Consistent(w) && Clash(w, host, a, b)
    ensures var (v, ok) := Discover(lib, host, w, orders, keepsStatus);
      !ok && Consistent(v) && Clash(v, host, a, b) && !(Claimed(host, v, a) && Claimed(host, v, b))
  {
    ListedNames(orders, w.engine.containers.Keys);
    ClashIsNotFree(w, host, a, b, orders.containers(w.engine.containers.Keys));
    DiscoverNeedsFreeNames(lib, host, w, orders, keepsStatus);
    DiscoverKeeps(lib, host, w, orders, keepsStatus);
    DiscoverKeepsClash(lib, host, w, a, b, orders, keepsStatus);
  }

  /** The containers a.b and a-b are such a pair. */
  lemma DotAndDashClash(w: World, host: string)
    requires "a.b" in w.engine.containers && Adoptable(w.engine.containers["a.b"])
    requires "a-b" in w.engine.containers && Adoptable(w.engine.containers["a-b"])
    requires !Claimed(host, w, "a.b") && !Claimed(host, w, "a-b")
    ensures Clash(w, host, "a.b", "a-b")
  {
    ClashingNames();
    assert "a.b"[1] != "a-b"[1];
  }
}
