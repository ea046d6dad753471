/** Exactly when a pass of the DockerDeployment controller indexes past the front of its list. */
module DeploymentPanics {
  import opened Go
  import opened DockerEngine
  import opened DeploymentModel
  import opened DeploymentProofs
  import opened DeploymentLimits

  // ---- Counts that never panic ----

  lemma {:induction false} EnoughToDelete(w: World, owned: seq<Item>, count: nat)
    requires count <= |owned|
    ensures ScaleDown(w, owned, count).1 != Some(Panic)
    decreases count
  {
    if count > 0 {
      var k := |owned| - 1;
      EnoughToDelete(DeleteChild(w, owned[k].name).0, owned[..k], count - 1);
    }
  }

  /** The smallest int32 is its own negation, so with it the controller never deletes anything. */
  lemma ScalePanics(d: Deployment, w: World, owned: seq<Item>)
    requires |owned| < TWO_31 && Scale(d, w, owned).1 == Some(Panic)
    ensures -TWO_31 < Replicas(d) < 0
  {
    var diff: int := Int32(Replicas(d) - Int32(|owned|));
    if Replicas(d) >= 0 {
      assert diff == Replicas(d) - |owned|;
      if diff < 0 {
        EnoughToDelete(w, owned, -diff);
      }
    }
  }

  /** No tape makes a pass panic unless the replica count is negative, and not the smallest int32. */
  lemma PassPanics(d: Deployment, w: World)
    requires WellFormed(w) && Reconcile(d, w).1 == Panic
    ensures -TWO_31 < Replicas(d) < 0
  {
    AwaitInherits(w);
    var (w1, err, got) := Get(w);
    AwaitInherits(w1);
    var (w2, err2, listing) := List(w1);
    ListShows(AnyOrder(), listing, w2.objects);
    ScalePanics(d, w2, SortByAge(OwnedItems(listing, w2.objects)));
  }

  // ---- Counts that do ----

  lemma {:induction false} PastTheFront(w: World, owned: seq<Item>, count: nat)
    requires |owned| < count && ScaleDown(w, owned, |owned|).1 == None
    ensures ScaleDown(w, owned, count) == (ScaleDown(w, owned, |owned|).0, Some(Panic))
    decreases count
  {
    if owned != [] {
      var k := |owned| - 1;
      PastTheFront(DeleteChild(w, owned[k].name).0, owned[..k], count - 1);
    }
  }

  lemma NegativeScale(d: Deployment, w: World, owned: seq<Item>)
    requires Replicas(d) < 0 && |owned| - Replicas(d) < TWO_31
    requires Listed(w, owned) && |w.tape| == |owned| && AllDone(w.tape)
    ensures var (v, stop) := Scale(d, w, owned);
      stop == Some(Panic) && forall p :: 0 <= p < |owned| ==> owned[p].child.uid in v.log.condemned
  {
    assert Int32(Replicas(d) - Int32(|owned|)) == Replicas(d) - |owned|;
    ScaleDownHits(w, owned, |owned|);
    PastTheFront(w, owned, |owned| - Replicas(d));
  }

  lemma StopsWithScale(d: Deployment, w: World, owned: seq<Item>)
    requires Live(w) && Get(w).1 == Ok && Get(w).2 == w.deployment
    requires ListOwned(Get(w).0).1 == Ok && ListOwned(Get(w).0).2 == owned
    requires Scale(d, ListOwned(Get(w).0).0, owned).1 == Some(Panic)
    ensures Reconcile(d, w) == (Scale(d, ListOwned(Get(w).0).0, owned).0, Panic)
  {
  }

  /** An undisturbed pass with a negative replica count, which nothing rejects, deletes every child and
      then panics, as long as the difference fits an int32. */
  lemma NegativeReplicasPanic(d: Deployment, w: World, listing: seq<string>)
    requires WellFormed(w) && Live(w) && IsListing(listing, w.objects)
    requires Replicas(d) < 0 && |Owned(w.objects)| - Replicas(d) < TWO_31
    ensures var (v, result) := Reconcile(d, w.(tape := DeletingTape(listing, |Owned(w.objects)|)));
      result == Panic && forall n :: n in Owned(w.objects) ==> w.objects[n].uid in v.log.condemned
  {
    var owned := SortByAge(OwnedItems(listing, w.objects));
    ListedByCall(w, listing);
    ReadsAll(d, w, listing, |owned|);
    var tape := DeletingTape(listing, |owned|);
    NegativeScale(d, w.(tape := tape[2..]), owned);
    StopsWithScale(d, w.(tape := tape), owned);
    forall n | n in Owned(w.objects)
      ensures w.objects[n].uid in Reconcile(d, w.(tape := tape)).0.log.condemned
    {
      var p := IndexOf(w.objects, listing, n);
    }
  }

  // ---- Both together ----

  /** Whatever there is goes before the pass has listed it. */
  function Clear(names: seq<string>): seq<Event> {
    if names == [] then [] else [UserDelete(names[0]), Finalized(names[0])] + Clear(names[1..])
  }

  lemma {:induction false} ClearsAll(w: World, names: seq<string>)
    requires forall n :: n in w.objects ==> n in names
    ensures var v := ApplyAll(w, Clear(names)); v.objects == map[] && v.deployment == w.deployment
    decreases |names|
  {
    if names == [] {
      assert w.objects == map[];
    } else {
      var events := Clear(names);
      var w1 := Apply(w, events[0]);
      var w2 := Apply(w1, events[1]);
      assert names == [names[0]] + names[1..];
      assert events[1..][1..] == Clear(names[1..]);
      assert ApplyAll(w, events) == ApplyAll(w2, Clear(names[1..]));
      ClearsAll(w2, names[1..]);
    }
  }

  lemma EmptyPanics(d: Deployment, w: World, names: seq<string>)
    requires Live(w) && -TWO_31 < Replicas(d) < 0 && forall n :: n in w.objects ==> n in names
    ensures Reconcile(d, w.(tape := [Choice(Clear(names), Done, [], ""), Quiet([])])).1 == Panic
  {
    var tape := [Choice(Clear(names), Done, [], ""), Quiet([])];
    var w0 := w.(tape := tape[1..]);
    ClearsAll(w0, names);
    var w1 := ApplyAll(w0, Clear(names));
    AwaitTape(w.(tape := tape));
    assert Await(w.(tape := tape)) == (w1, tape[0]);
    AwaitTape(w1);
    var w2 := Await(w1).0;
    assert w2 == w1.(tape := []);
    assert ListOwned(w1) == (w2, Ok, []);
    assert Int32(Replicas(d) - Int32(0)) == Replicas(d);
    assert Scale(d, w2, []) == (w2, Some(Panic));
  }

  /** Some pass panics exactly if the replica count is negative and not the smallest int32. */
  lemma PanicsExactly(d: Deployment, w: World)
    requires WellFormed(w) && Live(w)
    ensures (exists tape :: Reconcile(d, w.(tape := tape)).1 == Panic) <==> -TWO_31 < Replicas(d) < 0
  {
    if -TWO_31 < Replicas(d) < 0 {
      var names := Enumerate(w.objects.Keys);
      EmptyPanics(d, w, names);
    }
    forall tape | Reconcile(d, w.(tape := tape)).1 == Panic ensures -TWO_31 < Replicas(d) < 0 {
      assert WellFormed(w.(tape := tape));
      PassPanics(d, w.(tape := tape));
    }
  }
}
