/** The container of a resource that discovery added is left alone. */
module DiscoveredRuns {
  import opened Go
  import opened DockerEngine
  import opened ContainerSpecs
  import opened Adoption
  import opened ContainerModel
  import opened Discovery
  import opened DiscoveryProofs
  import DiscoveredObjects
  import opened ObserveRuns

  /** The resource observes, and is not being deleted before it was observed once. */
  ghost predicate Watched(w: World, key: string) {
    && key in w.objects
    && ModeFor(w.objects[key].spec, w.objects[key].owners) == Observe
    && (w.objects[key].deleting ==> w.objects[key].status.adopted)
  }

  /** Nobody edits the mode of the resource, and nobody deletes it before it was observed once. */
  ghost predicate Patient(w: World, key: string, m: Move) {
    match m
    case Edit(k, edited) =>
      k == key && key in w.objects ==>
        && ModeFor(edited.spec, edited.owners) == Observe
        && (edited.deleting ==> w.objects[key].status.adopted)
    case UserDelete(k) => k == key && key in w.objects ==> w.objects[key].status.adopted
    case HostPass(_, _, orders, _) => Fair(orders)
    case _ => true
  }

  ghost predicate PatientRun(lib: Lib, key: string, w: World, moves: seq<Move>)
    decreases |moves|
  {
    moves == [] || key !in w.objects
    || (Patient(w, key, moves[0]) && PatientRun(lib, key, Step(lib, key, w, moves[0]), moves[1..]))
  }

  lemma SyncWatches(lib: Lib, w: World, key: string, cr: Stored, name: string, order: seq<PortKey>)
    requires Consistent(w) && Watched(w, key) && w.objects[key] == cr && !cr.deleting
    ensures var v := Sync(lib, w, key, cr, name, order).0; v.ops == w.ops && Consistent(v) && Watched(v, key)
  {
    ObserveOnly(lib, w, key, cr, name, order);
    var (w1, listed) := Read(w);
    if listed {
      var m := if name in w1.engine.containers then Some(w1.engine.containers[name]) else None;
      if m.None? {
        PutStatusGrows(w1, key, Status(None, Missing, true, ""));
      } else {
        var (w2, c, err) := InspectContainer(w1, ById(name, m.value.id));
        if err == Ok {
          var spec := SnapshotSpec(lib.floats, cr.spec.dockerHostRef, "/" + name, InspectOf(name, c.value), order);
          PutStatusGrows(w2, key, Status(Some(m.value.id), Runtime(m.value.state), true, lib.hash(spec)));
        }
      }
    }
  }

  lemma PassWatches(lib: Lib, w: World, key: string, order: seq<PortKey>)
    requires Consistent(w) && Watched(w, key)
    ensures var v := Reconcile(lib, w, key, order).0;
      v.ops == w.ops && Consistent(v) && (key in v.objects ==> Watched(v, key))
  {
    if w.objects[key].status.adopted {
      PassObserves(lib, w, key, order);
    } else {
      var (w1, got) := Read(w);
      if got {
        var cr := w1.objects[key];
        if FINALIZER in cr.finalizers {
          var (w2, client) := Read(w1);
          if client {
            SyncWatches(lib, w2, key, cr, RuntimeName(key, cr), order);
          }
        } else {
          PutGrows(w1, key, cr.(finalizers := cr.finalizers + {FINALIZER}));
        }
      }
    }
  }

  lemma DiscoverWatches(lib: Lib, host: string, w: World, orders: Orders, keepsStatus: bool, key: string)
    requires Fair(orders) && Consistent(w) && Watched(w, key)
    ensures var v := Discover(lib, host, w, orders, keepsStatus).0; v.ops == w.ops && Consistent(v) && Watched(v, key)
  {
    DiscoverKeeps(lib, host, w, orders, keepsStatus);
  }

  lemma StepWatches(lib: Lib, key: string, w: World, m: Move)
    requires Consistent(w) && Watched(w, key) && Patient(w, key, m)
    ensures var v := Step(lib, key, w, m); v.ops == w.ops && Consistent(v) && (key in v.objects ==> Watched(v, key))
  {
    match m
    case Pass(tape, order) => PassWatches(lib, w.(tape := tape), key, order);
    case HostPass(host, tape, orders, keepsStatus) =>
      DiscoverWatches(lib, host, w.(tape := tape), orders, keepsStatus, key);
    case _ =>
  }

  lemma {:induction false} WatchedIsLeftAlone(lib: Lib, key: string, w: World, moves: seq<Move>)
    requires Consistent(w) && Watched(w, key) && PatientRun(lib, key, w, moves)
    ensures Run(lib, key, w, moves).ops == w.ops
    decreases |moves|
  {
    if moves != [] {
      StepWatches(lib, key, w, moves[0]);
      var v := Step(lib, key, w, moves[0]);
      if key in v.objects {
        WatchedIsLeftAlone(lib, key, v, moves[1..]);
      }
    }
  }

  /** From the discovery pass that adds a resource on, however its calls end, no reconcile of the resource, no
      other discovery pass and not its deletion either makes a call that could change the Docker host, as long
      as nobody edits its mode or deletes it before it was observed once. */
  lemma DiscoveredIsLeftAlone(
    lib: Lib, host: string, w: World, orders: Orders, keepsStatus: bool, key: string, moves: seq<Move>)
    requires Fair(orders) && Consistent(w) && key !in w.objects
    requires var v := Discover(lib, host, w, orders, keepsStatus).0;
      key in v.objects && PatientRun(lib, key, v, moves)
    ensures var v := Discover(lib, host, w, orders, keepsStatus).0; Run(lib, key, v, moves).ops == w.ops
  {
    var v := Discover(lib, host, w, orders, keepsStatus).0;
    DiscoverKeeps(lib, host, w, orders, keepsStatus);
    DiscoveredObjects.DiscoverAdds(lib, host, w, orders, keepsStatus);
    assert DiscoveredObjects.IsAdoption(lib, v.objects[key], host, w.engine, keepsStatus);
    WatchedIsLeftAlone(lib, key, v, moves);
  }
}
