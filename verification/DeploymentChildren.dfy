/** The children a DockerDeployment makes, and the number of them it reports. */
module DeploymentChildren {
  import opened Go
  import opened DockerEngine
  import opened ContainerSpecs
  import opened DeploymentModel
  import opened DeploymentProofs
  import opened DeploymentProgress

  // ---- No two children ask for the same container ----

  /** A child that this deployment made under this name. */
  ghost predicate Made(d: Deployment, name: string, c: Child) {
    && |d.name| < |name| && name == ChildName(d, name[|d.name| + 1..])
    && c.spec == ChildSpec(d, name[|d.name| + 1..]) && c.labels == d.templateLabels
  }

  ghost predicate AllMade(d: Deployment, w: World) {
    forall n :: n in w.objects && w.objects[n].controlled ==> Made(d, n, w.objects[n])
  }

  lemma {:induction false} EventsKeepMade(d: Deployment, w: World, events: seq<Event>)
    requires AllMade(d, w)
    ensures AllMade(d, ApplyAll(w, events))
    decreases |events|
  {
    if events != [] {
      EventsKeepMade(d, Apply(w, events[0]), events[1..]);
    }
  }

  lemma AwaitKeepsMade(d: Deployment, w: World)
    requires AllMade(d, w)
    ensures AllMade(d, Await(w).0)
  {
    if w.tape != [] {
      EventsKeepMade(d, w.(tape := w.tape[1..]), w.tape[0].before);
    }
  }

  lemma {:induction false} ScaleUpKeepsMade(d: Deployment, w: World, count: nat)
    requires AllMade(d, w)
    ensures AllMade(d, ScaleUp(d, w, count).0)
    decreases count
  {
    if count > 0 {
      AwaitKeepsMade(d, w);
      var suffix := Await(w).1.suffix;
      assert ChildName(d, suffix)[|d.name| + 1..] == suffix;
      ScaleUpKeepsMade(d, CreateChild(d, w).0, count - 1);
    }
  }

  lemma {:induction false} ScaleDownKeepsMade(d: Deployment, w: World, owned: seq<Item>, count: nat)
    requires AllMade(d, w)
    ensures AllMade(d, ScaleDown(w, owned, count).0)
    decreases count
  {
    if count > 0 && owned != [] {
      var k := |owned| - 1;
      AwaitKeepsMade(d, w);
      ScaleDownKeepsMade(d, DeleteChild(w, owned[k].name).0, owned[..k], count - 1);
    }
  }

  lemma ScaleKeepsMade(d: Deployment, w: World, owned: seq<Item>)
    requires AllMade(d, w)
    ensures AllMade(d, Scale(d, w, owned).0)
  {
    var diff: int := Int32(Replicas(d) - Int32(|owned|));
    if diff > 0 {
      ScaleUpKeepsMade(d, w, diff);
    } else if diff < 0 {
      ScaleDownKeepsMade(d, w, owned, Max(Int32(-diff), 0));
    }
  }

  lemma CountKeepsMade(d: Deployment, w: World, copy: Stored)
    requires AllMade(d, w)
    ensures AllMade(d, Count(w, copy).0)
  {
    AwaitKeepsMade(d, w);
    AwaitKeepsMade(d, Await(w).0);
  }

  lemma PassKeepsMade(d: Deployment, w: World)
    requires AllMade(d, w)
    ensures AllMade(d, Reconcile(d, w).0)
  {
    AwaitKeepsMade(d, w);
    var (w1, err, got) := Get(w);
    if err == Ok && !got.value.deleting {
      AwaitKeepsMade(d, w1);
      var (w2, err2, owned) := ListOwned(w1);
      if err2 == Ok {
        ScaleKeepsMade(d, w2, owned);
        CountKeepsMade(d, Scale(d, w2, owned).0, got.value);
      }
    }
  }

  lemma SameSuffix(base: string, s: string, t: string)
    requires base + "-" + s == base + "-" + t
    ensures s == t
  {
    assert s == (base + "-" + s)[|base| + 1..];
    assert t == (base + "-" + t)[|base| + 1..];
  }

  lemma DistinctRequests(d: Deployment, m: string, n: string, a: Child, b: Child)
    requires Made(d, m, a) && Made(d, n, b) && m != n
    ensures a.spec.containerName != b.spec.containerName
  {
    var base := if d.templateSpec.containerName == "" then d.name else d.templateSpec.containerName;
    if a.spec.containerName == b.spec.containerName {
      SameSuffix(base, m[|d.name| + 1..], n[|d.name| + 1..]);
    }
  }

  /** The child is called after the deployment, carries the labels of the template, and has its spec apart from
      two fields: the container is called like the child, or like the template's with the same suffix, and an
      empty mode is Enforce. */
  predicate FollowsTemplate(d: Deployment, name: string, c: Child) {
    var t := d.templateSpec;
    && d.name + "-" <= name
    && c.labels == d.templateLabels
    && c.spec == t.(containerName := c.spec.containerName, managementMode := c.spec.managementMode)
    && c.spec.containerName == (if t.containerName == "" then name else t.containerName + name[|d.name|..])
    && c.spec.managementMode == (if t.managementMode == "" then "Enforce" else t.managementMode)
  }

  lemma MadeFollows(d: Deployment, name: string, c: Child)
    requires Made(d, name, c)
    ensures FollowsTemplate(d, name, c)
  {
    var suffix := name[|d.name| + 1..];
    assert name == d.name + ("-" + suffix);
    assert name[|d.name|..] == "-" + suffix;
    assert d.templateSpec.containerName + "-" + suffix == d.templateSpec.containerName + ("-" + suffix);
  }

  /** In every run, two children of a deployment never ask for the same container name, none leaves its
      name to a default, and every one follows the template. */
  lemma {:induction false} ContainerNamesDiffer(d: Deployment, w: World, moves: seq<Move>)
    requires AllMade(d, w)
    ensures var v := Run(d, w, moves);
      && AllMade(d, v)
      && (forall n :: n in Owned(v.objects) ==>
            v.objects[n].spec.containerName != "" && FollowsTemplate(d, n, v.objects[n]))
      && (forall m, n :: m in Owned(v.objects) && n in Owned(v.objects) && m != n ==>
            v.objects[m].spec.containerName != v.objects[n].spec.containerName)
    decreases |moves|
  {
    if moves == [] {
      forall m, n | m in Owned(w.objects) && n in Owned(w.objects) && m != n
        ensures w.objects[m].spec.containerName != w.objects[n].spec.containerName
      {
        DistinctRequests(d, m, n, w.objects[m], w.objects[n]);
      }
      forall n | n in Owned(w.objects) ensures FollowsTemplate(d, n, w.objects[n]) {
        MadeFollows(d, n, w.objects[n]);
      }
    } else {
      match moves[0] {
        case Pass(tape) => PassKeepsMade(d, w.(tape := tape));
        case Outside(event) => EventsKeepMade(d, w, [event]);
          assert ApplyAll(w, [event]) == ApplyAll(Apply(w, event), []);
      }
      ContainerNamesDiffer(d, Step(d, w, moves[0]), moves[1..]);
    }
  }

  /** The mode written into a child is the one an owned child with the template's mode resolves to. */
  lemma ModeIsResolved(d: Deployment, suffix: string, owners: seq<OwnerRef>, others: seq<OwnerRef>)
    requires OwnedByDeployment(owners)
    ensures ModeFor(ChildSpec(d, suffix), others) == ModeFor(d.templateSpec, owners)
            || d.templateSpec.managementMode !in {"", "Enforce", "Observe"}
    ensures d.templateSpec.managementMode == "" ==> ModeFor(ChildSpec(d, suffix), others) == Enforce
  {
  }

  // ---- The reported number ----

  ghost predicate NoEvents(tape: seq<Choice>) {
    forall i :: 0 <= i < |tape| ==> tape[i].before == []
  }

  ghost function RunningNames(objects: map<string, Child>): set<string> {
    set n | n in objects && objects[n].controlled && objects[n].running
  }

  lemma QuietAwait(w: World)
    requires NoEvents(w.tape)
    ensures var v := Await(w).0;
      NoEvents(v.tape) && v.objects == w.objects && v.deployment == w.deployment && v == w.(tape := v.tape)
  {
  }

  lemma {:induction false} QuietScaleUp(d: Deployment, w: World, count: nat)
    requires NoEvents(w.tape)
    ensures var v := ScaleUp(d, w, count).0; NoEvents(v.tape) && v.deployment == w.deployment
    decreases count
  {
    if count > 0 {
      QuietAwait(w);
      QuietScaleUp(d, CreateChild(d, w).0, count - 1);
    }
  }

  lemma {:induction false} QuietScaleDown(w: World, owned: seq<Item>, count: nat)
    requires NoEvents(w.tape)
    ensures var v := ScaleDown(w, owned, count).0; NoEvents(v.tape) && v.deployment == w.deployment
    decreases count
  {
    if count > 0 && owned != [] {
      var k := |owned| - 1;
      QuietAwait(w);
      QuietScaleDown(DeleteChild(w, owned[k].name).0, owned[..k], count - 1);
    }
  }

  lemma QuietScale(d: Deployment, w: World, owned: seq<Item>)
    requires NoEvents(w.tape)
    ensures var v := Scale(d, w, owned).0; NoEvents(v.tape) && v.deployment == w.deployment
  {
    var diff: int := Int32(Replicas(d) - Int32(|owned|));
    if diff > 0 {
      QuietScaleUp(d, w, diff);
    } else if diff < 0 {
      QuietScaleDown(w, owned, Max(Int32(-diff), 0));
    }
  }

  ghost function RunningIn(s: seq<Item>): set<string> {
    set x | x in s && x.child.running :: x.name
  }

  lemma {:induction false} CountRunning(s: seq<Item>)
    requires InOrder(AnyOrder(), s)
    ensures RunningCount(s) == |RunningIn(s)| <= |s|
  {
    if s == [] {
      assert RunningIn(s) == {};
    } else {
      var k := |s| - 1;
      CountRunning(s[..k]);
      assert s == s[..k] + [s[k]];
      forall x | x in s[..k] ensures x.name != s[k].name {
        var i :| 0 <= i < k && s[i] == x;
        assert Precedes(AnyOrder(), s[i], s[k]);
      }
      assert RunningIn(s) == RunningIn(s[..k]) + if s[k].child.running then {s[k].name} else {};
      assert s[k].name !in RunningIn(s[..k]);
    }
  }

  lemma CountReports(w: World, copy: Stored)
    requires WellFormed(w) && NoEvents(w.tape) && w.deployment == Some(copy) && Count(w, copy).1 == Again
    ensures var v := Count(w, copy).0;
      && v.objects == w.objects
      && v.deployment.Some? && v.deployment.value.availableReplicas == |RunningNames(v.objects)|
  {
    QuietAwait(w);
    var (w1, err, listing) := List(w);
    QuietAwait(w1);
    var owned := SortByAge(OwnedItems(listing, w1.objects));
    ListShows(AnyOrder(), listing, w1.objects);
    CountRunning(owned);
    forall n | n in RunningNames(w1.objects) ensures n in RunningIn(owned) {
      assert Shows(w1.objects, Item(n, w1.objects[n]));
    }
    assert RunningNames(w1.objects) == RunningIn(owned);
  }

  /** A number that is already stored is not written again, so that nothing more can go wrong. */
  lemma KnownCountIsNotWritten(w: World, copy: Stored)
    requires WellFormed(w) && w.tape != [] && w.tape[0].before == [] && w.tape[0].outcome == Done
    requires IsListing(w.tape[0].listing, w.objects) && copy.availableReplicas == |RunningNames(w.objects)|
    ensures Count(w, copy) == (w.(tape := w.tape[1..]), Again)
  {
    var w1 := w.(tape := w.tape[1..]);
    assert ApplyAll(w1, []) == w1;
    var listing := w.tape[0].listing;
    var owned := SortByAge(OwnedItems(listing, w.objects));
    ListShows(AnyOrder(), listing, w.objects);
    CountRunning(owned);
    forall n | n in RunningNames(w.objects) ensures n in RunningIn(owned) {
      assert Shows(w.objects, Item(n, w.objects[n]));
    }
    assert RunningNames(w.objects) == RunningIn(owned);
  }

  /** After a successful pass that nothing interferes with, the stored number of available replicas is
      the number of children that are running. */
  lemma AvailableIsRunning(d: Deployment, w: World)
    requires WellFormed(w) && NoEvents(w.tape) && Replicas(d) >= 0 && Reconcile(d, w).1 == Again
    ensures var v := Reconcile(d, w).0;
      v.deployment.Some? && v.deployment.value.availableReplicas == |RunningNames(v.objects)|
  {
    QuietAwait(w);
    var (w1, err, got) := Get(w);
    QuietAwait(w1);
    var (w2, err2, listing) := List(w1);
    var owned := SortByAge(OwnedItems(listing, w2.objects));
    ScaleStops(d, w2, owned);
    QuietScale(d, w2, owned);
    ListShows(AnyOrder(), listing, w2.objects);
    ScaleReaches(d, w2, owned);
    CountReports(Scale(d, w2, owned).0, got.value);
  }
}
