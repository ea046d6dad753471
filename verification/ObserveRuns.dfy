/** An observed resource leaves the Docker host alone for as long as it exists. */
module ObserveRuns {
  import opened Go
  import opened DockerEngine
  import opened ContainerSpecs
  import opened Adoption
  import opened AdoptionProofs
  import opened ContainerModel
  import opened Discovery
  import opened DiscoveryProofs

  /** Passes of the resource itself, discovery passes, anything at all happening on the Docker host, and
      writes of users to any object. Users cannot write the status, which is a subresource. */
  datatype Move =
    | Pass(tape: seq<Outcome>, order: seq<PortKey>)
    | HostPass(host: string, tape: seq<Outcome>, orders: Orders, keepsStatus: bool)
    | Outside(engine: Engine)
    | Edit(key: string, edited: Stored)
    | UserDelete(key: string)

  function Step(lib: Lib, key: string, w: World, m: Move): World {
    match m
    case Pass(tape, order) => Reconcile(lib, w.(tape := tape), key, order).0
    case HostPass(host, tape, orders, keepsStatus) => Discover(lib, host, w.(tape := tape), orders, keepsStatus).0
    case Outside(engine) => w.(engine := engine)
    case Edit(k, edited) =>
      if k in w.objects && !(edited.deleting && edited.finalizers == {}) then
        w.(objects := w.objects[k := edited.(status := w.objects[k].status)])
      else w
    case UserDelete(k) =>
      if k !in w.objects then w
      else if w.objects[k].finalizers == {} then w.(objects := w.objects - {k})
      else w.(objects := w.objects[k := w.objects[k].(deleting := true)])
  }

  /** Only edits that leave the resource observed. */
  ghost predicate Allowed(key: string, m: Move) {
    match m
    case Edit(k, edited) => k == key ==> ModeFor(edited.spec, edited.owners) == Observe
    case HostPass(_, _, orders, _) => Fair(orders)
    case _ => true
  }

  /** The resource was observed at least once and is still in Observe mode. */
  ghost predicate Observed(w: World, key: string) {
    key in w.objects && w.objects[key].status.adopted && ModeFor(w.objects[key].spec, w.objects[key].owners) == Observe
  }

  lemma RuntimeObserves(
    lib: Lib, w: World, key: string, cr: Stored, name: string, m: Option<Container>, order: seq<PortKey>)
    requires Consistent(w) && Observed(w, key)
    ensures Grown(w, ObserveRuntime(lib, w, key, cr, name, m, order).0)
  {
    if m.None? {
      PutStatusGrows(w, key, Status(None, Missing, true, ""));
    } else {
      var (w1, c, err) := InspectContainer(w, ById(name, m.value.id));
      if err == Ok {
        var spec := SnapshotSpec(lib.floats, cr.spec.dockerHostRef, "/" + name, InspectOf(name, c.value), order);
        PutStatusGrows(w1, key, Status(Some(m.value.id), Runtime(m.value.state), true, lib.hash(spec)));
      }
    }
  }

  /** In Observe mode a sync only observes. */
  lemma ObserveOnly(lib: Lib, w: World, key: string, cr: Stored, name: string, order: seq<PortKey>)
    requires ModeFor(cr.spec, cr.owners) == Observe
    ensures var (w1, listed) := Read(w);
      Sync(lib, w, key, cr, name, order) ==
        if !listed then (w1, false)
        else
          var seen := if name in w.engine.containers then Some(w.engine.containers[name]) else None;
          ObserveRuntime(lib, w1, key, cr, name, seen, order)
  {
  }

  lemma SyncObserves(lib: Lib, w: World, key: string, cr: Stored, name: string, order: seq<PortKey>)
    requires Consistent(w) && Observed(w, key) && w.objects[key] == cr
    ensures Grown(w, Sync(lib, w, key, cr, name, order).0)
  {
    ObserveOnly(lib, w, key, cr, name, order);
    var (w1, listed) := Read(w);
    if listed {
      var m := if name in w1.engine.containers then Some(w1.engine.containers[name]) else None;
      RuntimeObserves(lib, w1, key, cr, name, m, order);
    }
  }

  lemma PassObserves(lib: Lib, w: World, key: string, order: seq<PortKey>)
    requires Consistent(w) && Observed(w, key)
    ensures var w' := Reconcile(lib, w, key, order).0;
      w'.ops == w.ops && w'.engine == w.engine && Consistent(w') && (key in w'.objects ==> Observed(w', key))
  {
    var (w1, got) := Read(w);
    if got {
      var cr := w1.objects[key];
      if !cr.deleting {
        if FINALIZER in cr.finalizers {
          var (w2, client) := Read(w1);
          if client {
            SyncObserves(lib, w2, key, cr, RuntimeName(key, cr), order);
          }
        } else {
          PutGrows(w1, key, cr.(finalizers := cr.finalizers + {FINALIZER}));
        }
      }
    }
  }

  lemma StepObserves(lib: Lib, key: string, w: World, m: Move)
    requires Consistent(w) && Observed(w, key) && Allowed(key, m)
    ensures var w' := Step(lib, key, w, m);
      w'.ops == w.ops && Consistent(w') && (key in w'.objects ==> Observed(w', key))
  {
    match m
    case Pass(tape, order) => PassObserves(lib, w.(tape := tape), key, order);
    case HostPass(host, tape, orders, keepsStatus) => DiscoverKeeps(lib, host, w.(tape := tape), orders, keepsStatus);
    case _ =>
  }

  /** The run ends when the resource is gone. */
  function Run(lib: Lib, key: string, w: World, moves: seq<Move>): World
    decreases |moves|
  {
    if moves == [] || key !in w.objects then w else Run(lib, key, Step(lib, key, w, moves[0]), moves[1..])
  }

  /** Once a resource has been observed, and as long as its mode stays Observe, no reconcile of it, no
      discovery pass and not its deletion either sends the Docker host a call that could change
      anything; and Adopted is never reset. */
  lemma {:induction false} ObservedIsLeftAlone(lib: Lib, key: string, w: World, moves: seq<Move>)
    requires Consistent(w) && Observed(w, key)
    requires forall i :: 0 <= i < |moves| ==> Allowed(key, moves[i])
    ensures var w' := Run(lib, key, w, moves);
      w'.ops == w.ops && (key in w'.objects ==> w'.objects[key].status.adopted)
    decreases |moves|
  {
    if moves != [] {
      StepObserves(lib, key, w, moves[0]);
      var w1 := Step(lib, key, w, moves[0]);
      if key in w1.objects {
        ObservedIsLeftAlone(lib, key, w1, moves[1..]);
      }
    }
  }

  /** A completed observe pass adopts: the hypothesis of ObservedIsLeftAlone then holds. */
  lemma ObserveAdopts(lib: Lib, w: World, key: string, name: string, order: seq<PortKey>)
    requires key in w.objects && ModeFor(w.objects[key].spec, w.objects[key].owners) == Observe
    requires Sync(lib, w, key, w.objects[key], name, order).1
    ensures Observed(Sync(lib, w, key, w.objects[key], name, order).0, key)
  {
  }

  function SeenHash(lib: Lib, o: Stored, name: string, c: Container, order: seq<PortKey>): string {
    lib.hash(SnapshotSpec(lib.floats, o.spec.dockerHostRef, "/" + name, InspectOf(name, c), order))
  }

  ghost predicate WritesSeen(lib: Lib, w: World, v: World, key: string, name: string, order: seq<PortKey>)
    requires key in w.objects && name in w.engine.containers
  {
    var c, o := w.engine.containers[name], w.objects[key];
    && v.engine == w.engine
    && (v.objects == w.objects
        || v.objects ==
           w.objects[key := o.(status := Status(Some(c.id), Runtime(c.state), true, SeenHash(lib, o, name, c, order)))])
  }

  lemma RuntimeWrites(lib: Lib, w: World, key: string, name: string, order: seq<PortKey>)
    requires key in w.objects && name in w.engine.containers
    ensures var seen := Some(w.engine.containers[name]);
      WritesSeen(lib, w, ObserveRuntime(lib, w, key, w.objects[key], name, seen, order).0, key, name, order)
  {
    var c := w.engine.containers[name];
    var (w1, seen, err) := InspectContainer(w, ById(name, c.id));
    if err == Ok {
      var status := Status(Some(c.id), Runtime(c.state), true, SeenHash(lib, w.objects[key], name, c, order));
      assert seen == Some(c) && w1.objects == w.objects && w1.engine == w.engine;
      assert ObserveRuntime(lib, w, key, w.objects[key], name, Some(c), order) == PutStatus(w1, key, status);
    }
  }

  /** What an observe pass over an existing container can write. */
  lemma ObserveWrites(lib: Lib, w: World, key: string, name: string, order: seq<PortKey>)
    requires key in w.objects && name in w.engine.containers
    requires ModeFor(w.objects[key].spec, w.objects[key].owners) == Observe
    ensures WritesSeen(lib, w, Sync(lib, w, key, w.objects[key], name, order).0, key, name, order)
  {
    RuntimeWrites(lib, Read(w).0, key, name, order);
  }

  /** The two controllers write the same hash for the same container: an observe pass, with whatever
      outcomes, never gives the next discovery pass anything to correct. */
  lemma ObserveKeepsSettled(lib: Lib, host: string, w: World, key: string, name: string, orders: Orders,
                            order: seq<PortKey>)
    requires Fair(orders) && name in w.engine.containers && SettledAt(lib, host, w, name, orders, key)
    requires ModeFor(w.objects[key].spec, w.objects[key].owners) == Observe
    requires IterationOrder(order, w.engine.containers[name].host.bindings)
    ensures var w' := Sync(lib, w, key, w.objects[key], name, order).0;
      name in w'.engine.containers && SettledAt(lib, host, w', name, orders, key)
  {
    var c := w.engine.containers[name];
    SnapshotIsCanonical(lib.floats, host, "/" + name, InspectOf(name, c), InspectOf(name, c),
                        order, orders.ports(c.host.bindings));
    ObserveWrites(lib, w, key, name, order);
  }
}
