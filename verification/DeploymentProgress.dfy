/** Where undisturbed passes of the DockerDeployment controller lead, and what they report. */
module DeploymentProgress {
  import opened Go
  import opened DockerEngine
  import opened DeploymentModel
  import opened DeploymentProofs
  import opened DeploymentLimits

  /** Nobody but the controller deletes anything. */
  ghost predicate Gentle(e: Event) {
    !e.UserDelete? && !e.DeleteDeployment?
  }

  ghost predicate AllGentle(events: seq<Event>) {
    forall i :: 0 <= i < |events| ==> Gentle(events[i])
  }

  ghost predicate GentleTape(tape: seq<Choice>) {
    forall i :: 0 <= i < |tape| ==> AllGentle(tape[i].before)
  }

  /** The children that have not been asked to go. */
  ghost function Staying(objects: map<string, Child>): set<string> {
    set n | n in objects && objects[n].controlled && !objects[n].deleting
  }

  /** Exactly the wanted number of children, and none on its way out. */
  ghost predicate Full(d: Deployment, objects: map<string, Child>) {
    |Owned(objects)| == Replicas(d) && Staying(objects) == Owned(objects)
  }

  ghost predicate Settled(d: Deployment, w: World) {
    WellFormed(w) && Full(d, w.objects)
  }

  // ---- Gentle events only ever finish deletions ----

  ghost predicate Shrinks(w: World, v: World) {
    && WellFormed(v) && Staying(v.objects) == Staying(w.objects) && Owned(v.objects) <= Owned(w.objects)
    && v.log == w.log
  }

  lemma GentleEvent(w: World, e: Event)
    requires WellFormed(w) && Gentle(e)
    ensures Shrinks(w, Apply(w, e))
  {
    EventInherits(w, e);
    var v := Apply(w, e);
    forall n ensures n in Staying(v.objects) <==> n in Staying(w.objects) {}
    forall n | n in Owned(v.objects) ensures n in Owned(w.objects) {}
  }

  lemma {:induction false} GentleEvents(w: World, events: seq<Event>)
    requires WellFormed(w) && AllGentle(events)
    ensures Shrinks(w, ApplyAll(w, events))
    decreases |events|
  {
    if events != [] {
      GentleEvent(w, events[0]);
      GentleEvents(Apply(w, events[0]), events[1..]);
    }
  }

  lemma GentleAwait(w: World)
    requires WellFormed(w) && GentleTape(w.tape)
    ensures Shrinks(w, Await(w).0) && GentleTape(Await(w).0.tape)
  {
    AwaitTape(w);
    if w.tape != [] {
      GentleEvents(w.(tape := w.tape[1..]), w.tape[0].before);
    }
  }

  // ---- Scaling reaches the wanted number ----

  lemma OneMore(objects: map<string, Child>, name: string, c: Child)
    requires name !in objects && c.controlled && !c.deleting
    ensures Owned(objects[name := c]) == Owned(objects) + {name} && name !in Owned(objects)
    ensures Staying(objects[name := c]) == Staying(objects) + {name} && name !in Staying(objects)
  {
  }

  lemma CreateAdds(d: Deployment, w: World)
    requires WellFormed(w) && GentleTape(w.tape) && CreateChild(d, w).1 == Ok && |Owned(w.objects)| + 1 < TWO_31
    ensures var v := CreateChild(d, w).0;
      && WellFormed(v) && GentleTape(v.tape)
      && |Staying(v.objects)| == |Staying(w.objects)| + 1
      && |Owned(v.objects)| <= |Owned(w.objects)| + 1
  {
    GentleAwait(w);
    var (w1, call) := Await(w);
    OneMore(w1.objects, ChildName(d, call.suffix), NewChild(d, w1, call.suffix));
    Smaller(Owned(w1.objects), Owned(w.objects));
  }

  lemma {:induction false} ScaleUpReaches(d: Deployment, w: World, count: nat)
    requires WellFormed(w) && GentleTape(w.tape) && ScaleUp(d, w, count).1 == Ok && |Owned(w.objects)| + count < TWO_31
    ensures var v := ScaleUp(d, w, count).0;
      && WellFormed(v) && GentleTape(v.tape)
      && |Staying(v.objects)| == |Staying(w.objects)| + count
      && |Owned(v.objects)| <= |Owned(w.objects)| + count
    decreases count
  {
    if count > 0 {
      CreateAdds(d, w);
      ScaleUpReaches(d, CreateChild(d, w).0, count - 1);
    }
  }

  lemma DeleteTakes(w: World, name: string)
    requires WellFormed(w) && GentleTape(w.tape) && DeleteChild(w, name).1 == Ok
    ensures var v := DeleteChild(w, name).0;
      WellFormed(v) && GentleTape(v.tape) && Staying(v.objects) == Staying(w.objects) - {name}
  {
    GentleAwait(w);
    var (w1, call) := Await(w);
    var v := Mark(w1, name);
    assert Inherits(w1, v);
    InheritsWellFormed(w1, v);
    assert Owned(DeleteChild(w, name).0.objects) == Owned(v.objects);
    assert Staying(v.objects) == Staying(w1.objects) - {name};
  }

  lemma NamesOfLast(owned: seq<Item>, count: nat)
    requires 0 < count <= |owned|
    ensures var k := |owned| - 1;
      Names(owned[|owned| - count..]) == Names(owned[..k][k - (count - 1)..]) + {owned[k].name}
  {
    var k := |owned| - 1;
    assert owned[|owned| - count..] == owned[..k][k - (count - 1)..] + [owned[k]];
  }

  lemma {:induction false} ScaleDownTakes(w: World, owned: seq<Item>, count: nat)
    requires WellFormed(w) && GentleTape(w.tape) && ScaleDown(w, owned, count).1 == None && count <= |owned|
    ensures var v := ScaleDown(w, owned, count).0;
      && WellFormed(v) && GentleTape(v.tape)
      && Staying(v.objects) == Staying(w.objects) - Names(owned[|owned| - count..])
    decreases count
  {
    if count > 0 {
      var k := |owned| - 1;
      var v := DeleteChild(w, owned[k].name).0;
      DeleteTakes(w, owned[k].name);
      ScaleDownTakes(v, owned[..k], count - 1);
      NamesOfLast(owned, count);
    } else {
      assert Names(owned[|owned|..]) == {};
    }
  }

  lemma SameIfAsMany(objects: map<string, Child>)
    ensures Staying(objects) <= Owned(objects)
    ensures |Owned(objects)| <= |Staying(objects)| ==> Staying(objects) == Owned(objects)
  {
    assert Owned(objects) == Staying(objects) + (Owned(objects) - Staying(objects));
  }

  lemma ScaleUpFills(d: Deployment, w: World, count: nat)
    requires WellFormed(w) && GentleTape(w.tape) && ScaleUp(d, w, count).1 == Ok
    requires |Owned(w.objects)| + count == Replicas(d)
    ensures var v := ScaleUp(d, w, count).0;
      && WellFormed(v) && GentleTape(v.tape) && |Staying(v.objects)| <= Replicas(d)
      && (Staying(w.objects) == Owned(w.objects) ==> Full(d, v.objects))
  {
    ScaleUpReaches(d, w, count);
    SameIfAsMany(w.objects);
    SameIfAsMany(ScaleUp(d, w, count).0.objects);
    Smaller(Staying(w.objects), Owned(w.objects));
  }

  lemma SurvivorsFit(objects: map<string, Child>, owned: seq<Item>, keep: nat)
    requires InOrder(AnyOrder(), owned) && keep <= |owned| && forall x :: x in owned <==> Shows(objects, x)
    ensures |Staying(objects) - Names(owned[keep..])| <= keep
  {
    CountNames(AnyOrder(), owned[..keep]);
    assert owned == owned[..keep] + owned[keep..];
    assert forall x :: x in owned ==> x in owned[..keep] || x in owned[keep..];
    forall n | n in Staying(objects) - Names(owned[keep..]) ensures n in Names(owned[..keep]) {
      assert Shows(objects, Item(n, objects[n]));
    }
    Smaller(Staying(objects) - Names(owned[keep..]), Names(owned[..keep]));
  }

  lemma ScaleDownFits(d: Deployment, w: World, owned: seq<Item>)
    requires WellFormed(w) && GentleTape(w.tape) && 0 <= Replicas(d) < |owned|
    requires InOrder(AnyOrder(), owned) && forall x :: x in owned <==> Shows(w.objects, x)
    requires ScaleDown(w, owned, |owned| - Replicas(d)).1 == None
    ensures var v := ScaleDown(w, owned, |owned| - Replicas(d)).0;
      WellFormed(v) && GentleTape(v.tape) && |Staying(v.objects)| <= Replicas(d)
  {
    ScaleDownTakes(w, owned, |owned| - Replicas(d));
    SurvivorsFit(w.objects, owned, Replicas(d));
  }

  /** What scaling leaves: never more than R children that stay, and exactly R if there were not too many. */
  lemma ScaleReaches(d: Deployment, w: World, owned: seq<Item>)
    requires WellFormed(w) && GentleTape(w.tape) && Replicas(d) >= 0
    requires InOrder(AnyOrder(), owned) && (forall x :: x in owned <==> Shows(w.objects, x))
    requires |owned| == |Owned(w.objects)| && Scale(d, w, owned).1 == None
    ensures var v := Scale(d, w, owned).0;
      && WellFormed(v) && GentleTape(v.tape) && |Staying(v.objects)| <= Replicas(d)
      && (Staying(w.objects) == Owned(w.objects) && |Owned(w.objects)| <= Replicas(d) ==> Full(d, v.objects))
  {
    var diff: int := Replicas(d) - |owned|;
    assert Int32(Replicas(d) - Int32(|owned|)) == diff;
    if diff > 0 {
      ScaleUpFills(d, w, diff);
    } else if diff < 0 {
      ScaleDownFits(d, w, owned);
    } else {
      SameIfAsMany(w.objects);
      Smaller(Staying(w.objects), Owned(w.objects));
    }
  }

  // ---- Whole passes ----

  lemma CountLeavesChildren(w: World, copy: Stored)
    requires WellFormed(w) && GentleTape(w.tape)
    ensures Shrinks(w, Count(w, copy).0)
  {
    GentleAwait(w);
    GentleAwait(Await(w).0);
  }

  lemma {:induction false} ScaleDownStops(w: World, owned: seq<Item>, count: nat)
    ensures ScaleDown(w, owned, count).1 != Some(Again)
    decreases count
  {
    if count > 0 && owned != [] {
      var k := |owned| - 1;
      ScaleDownStops(DeleteChild(w, owned[k].name).0, owned[..k], count - 1);
    }
  }

  lemma ScaleStops(d: Deployment, w: World, owned: seq<Item>)
    ensures Scale(d, w, owned).1 != Some(Again)
  {
    var diff: int := Int32(Replicas(d) - Int32(|owned|));
    if diff < 0 {
      ScaleDownStops(w, owned, Max(Int32(-diff), 0));
    }
  }

  lemma SameOwned(w: World, v: World)
    requires Shrinks(w, v) && Staying(w.objects) == Owned(w.objects)
    ensures Owned(v.objects) == Owned(w.objects) && Staying(v.objects) == Owned(v.objects)
  {
    SameIfAsMany(v.objects);
  }

  lemma ReplicateReaches(d: Deployment, w: World, copy: Stored)
    requires WellFormed(w) && GentleTape(w.tape) && Replicas(d) >= 0 && Replicate(d, w, copy).1 == Again
    ensures var v := Replicate(d, w, copy).0;
      && WellFormed(v) && |Staying(v.objects)| <= Replicas(d)
      && (Staying(w.objects) == Owned(w.objects) && |Owned(w.objects)| <= Replicas(d) ==> Settled(d, v))
  {
    GentleAwait(w);
    var (w1, err, listing) := List(w);
    ListShows(AnyOrder(), listing, w1.objects);
    var owned := SortByAge(OwnedItems(listing, w1.objects));
    ScaleStops(d, w1, owned);
    ScaleReaches(d, w1, owned);
    var w2 := Scale(d, w1, owned).0;
    CountLeavesChildren(w2, copy);
    if Staying(w.objects) == Owned(w.objects) && |Owned(w.objects)| <= Replicas(d) {
      SameOwned(w, w1);
      SameOwned(w2, Count(w2, copy).0);
    }
  }

  /** A pass reported as successful, with nobody else deleting children, leaves at most R that stay. If
      none was on its way out and there were not too many, it leaves exactly R. */
  lemma PassReaches(d: Deployment, w: World)
    requires WellFormed(w) && GentleTape(w.tape) && Replicas(d) >= 0 && Reconcile(d, w).1 == Again
    ensures var v := Reconcile(d, w).0;
      && WellFormed(v) && |Staying(v.objects)| <= Replicas(d)
      && (Staying(w.objects) == Owned(w.objects) && |Owned(w.objects)| <= Replicas(d) ==> Settled(d, v))
  {
    GentleAwait(w);
    var (w1, err, got) := Get(w);
    ReplicateReaches(d, w1, got.value);
    if Staying(w.objects) == Owned(w.objects) {
      SameOwned(w, w1);
    }
  }

  // ---- Passes that nothing disturbs succeed ----

  /** The names that the creations will ask for are free and different from each other. */
  ghost predicate FreshSuffixes(d: Deployment, objects: map<string, Child>, calls: seq<Choice>) {
    && (forall i :: 0 <= i < |calls| ==> ChildName(d, calls[i].suffix) !in objects)
    && (forall i, j :: 0 <= i < j < |calls| ==> calls[i].suffix != calls[j].suffix)
  }

  lemma SameName(d: Deployment, s: string, t: string)
    requires ChildName(d, s) == ChildName(d, t)
    ensures s == t
  {
    assert s == ChildName(d, s)[|d.name| + 1..];
    assert t == ChildName(d, t)[|d.name| + 1..];
  }

  lemma QuietCreate(d: Deployment, w: World)
    requires w.tape != [] && AllDone(w.tape) && ChildName(d, w.tape[0].suffix) !in w.objects
    ensures var (v, err) := CreateChild(d, w);
      && err == Ok && v.tape == w.tape[1..] && v.deployment == w.deployment
      && v.objects.Keys == w.objects.Keys + {ChildName(d, w.tape[0].suffix)}
  {
    var w1 := w.(tape := w.tape[1..]);
    assert ApplyAll(w1, []) == w1;
    assert Await(w) == (w1, w.tape[0]);
  }

  lemma {:induction false} ScaleUpSucceeds(d: Deployment, w: World, count: nat)
    requires count <= |w.tape| && AllDone(w.tape) && FreshSuffixes(d, w.objects, w.tape[..count])
    ensures var (v, err) := ScaleUp(d, w, count);
      err == Ok && v.tape == w.tape[count..] && v.deployment == w.deployment
    decreases count
  {
    if count > 0 {
      var calls := w.tape[..count];
      assert calls[0] == w.tape[0];
      QuietCreate(d, w);
      var v := CreateChild(d, w).0;
      forall i | 0 <= i < count - 1 ensures ChildName(d, v.tape[i].suffix) !in v.objects {
        assert v.tape[i] == calls[i + 1];
        if ChildName(d, calls[i + 1].suffix) == ChildName(d, calls[0].suffix) {
          SameName(d, calls[i + 1].suffix, calls[0].suffix);
        }
      }
      forall i, j | 0 <= i < j < count - 1 ensures v.tape[i].suffix != v.tape[j].suffix {
        assert v.tape[i] == calls[i + 1] && v.tape[j] == calls[j + 1];
      }
      ScaleUpSucceeds(d, v, count - 1);
    }
  }

  lemma {:induction false} ScaleDownSucceeds(w: World, owned: seq<Item>, count: nat)
    requires count <= |owned| && count <= |w.tape| && Listed(w, owned) && AllDone(w.tape)
    ensures var (v, stop) := ScaleDown(w, owned, count);
      stop == None && v.tape == w.tape[count..] && v.deployment == w.deployment
    decreases count
  {
    if count > 0 {
      var k := |owned| - 1;
      QuietDelete(w, owned[k].name);
      var v := DeleteChild(w, owned[k].name).0;
      ListedButLast(w, v, owned);
      ScaleDownSucceeds(v, owned[..k], count - 1);
    }
  }

  /** How many children there are too few or too many. */
  function Gap(d: Deployment, count: nat): nat {
    if Replicas(d) > count then Replicas(d) - count else count - Replicas(d)
  }

  lemma ScaleSucceeds(d: Deployment, w: World, owned: seq<Item>)
    requires |owned| < TWO_31 && Replicas(d) >= 0 && Listed(w, owned)
    requires Gap(d, |owned|) <= |w.tape| && AllDone(w.tape)
    requires |owned| < Replicas(d) ==> FreshSuffixes(d, w.objects, w.tape[..Replicas(d) - |owned|])
    ensures var (v, stop) := Scale(d, w, owned);
      stop == None && v.tape == w.tape[Gap(d, |owned|)..] && v.deployment == w.deployment
  {
    var diff: int := Replicas(d) - |owned|;
    assert Int32(Replicas(d) - Int32(|owned|)) == diff;
    if diff > 0 {
      ScaleUpSucceeds(d, w, diff);
    } else if diff < 0 {
      ScaleDownSucceeds(w, owned, -diff);
    }
  }

  /** Every call is performed and acknowledged with nothing in between, both list calls return what is
      stored, and random names do not clash. */
  ghost predicate Undisturbed(d: Deployment, w: World) {
    var gap := Gap(d, |Owned(w.objects)|);
    && gap + 4 <= |w.tape| && AllDone(w.tape)
    && IsListing(w.tape[1].listing, w.objects)
    && (|Owned(w.objects)| < Replicas(d) ==> FreshSuffixes(d, w.objects, w.tape[2..2 + gap]))
    && IsListing(w.tape[2 + gap].listing,
                 Scale(d, w.(tape := w.tape[2..]), SortByAge(OwnedItems(w.tape[1].listing, w.objects))).0.objects)
  }

  lemma QuietCall(w: World)
    requires w.tape != [] && AllDone(w.tape)
    ensures Await(w) == (w.(tape := w.tape[1..]), w.tape[0]) && AllDone(w.tape[1..])
  {
    var w1 := w.(tape := w.tape[1..]);
    assert ApplyAll(w1, []) == w1;
  }

  lemma CountSucceeds(w: World, copy: Stored)
    requires |w.tape| >= 2 && AllDone(w.tape) && IsListing(w.tape[0].listing, w.objects) && w.deployment.Some?
    ensures Count(w, copy).1 == Again
    ensures var v := Count(w, copy).0.deployment; v.Some? && v.value.deleting == w.deployment.value.deleting
  {
    QuietCall(w);
    QuietCall(w.(tape := w.tape[1..]));
  }

  lemma ReplicateStages(d: Deployment, w: World, copy: Stored, w1: World, owned: seq<Item>, w2: World)
    requires ListOwned(w) == (w1, Ok, owned) && Scale(d, w1, owned) == (w2, None)
    ensures Replicate(d, w, copy) == Count(w2, copy)
  {
  }

  lemma ScaleThenCount(d: Deployment, w: World, owned: seq<Item>, copy: Stored, gap: nat)
    requires |owned| < TWO_31 && Replicas(d) >= 0 && Listed(w, owned) && gap == Gap(d, |owned|)
    requires gap + 2 <= |w.tape| && AllDone(w.tape) && w.deployment.Some?
    requires |owned| < Replicas(d) ==> FreshSuffixes(d, w.objects, w.tape[..gap])
    requires IsListing(w.tape[gap].listing, Scale(d, w, owned).0.objects)
    ensures var (v, stop) := Scale(d, w, owned);
      && stop == None && Count(v, copy).1 == Again
      && var x := Count(v, copy).0.deployment; x.Some? && x.value.deleting == w.deployment.value.deleting
  {
    ScaleSucceeds(d, w, owned);
    CountSucceeds(Scale(d, w, owned).0, copy);
  }

  lemma ListSucceeds(w: World)
    requires WellFormed(w) && w.tape != [] && AllDone(w.tape) && IsListing(w.tape[0].listing, w.objects)
    ensures var owned := SortByAge(OwnedItems(w.tape[0].listing, w.objects));
      && ListOwned(w) == (w.(tape := w.tape[1..]), Ok, owned)
      && Listed(w.(tape := w.tape[1..]), owned) && |owned| == |Owned(w.objects)|
  {
    QuietCall(w);
    ListedByCall(w, w.tape[0].listing);
  }

  lemma ReplicateSucceeds(d: Deployment, w: World, copy: Stored)
    requires WellFormed(w) && Replicas(d) >= 0 && w.deployment.Some? && w.tape != [] && AllDone(w.tape)
    requires IsListing(w.tape[0].listing, w.objects)
    requires var gap := Gap(d, |Owned(w.objects)|);
      var owned := SortByAge(OwnedItems(w.tape[0].listing, w.objects));
      && gap + 3 <= |w.tape|
      && (|Owned(w.objects)| < Replicas(d) ==> FreshSuffixes(d, w.objects, w.tape[1..1 + gap]))
      && IsListing(w.tape[1 + gap].listing, Scale(d, w.(tape := w.tape[1..]), owned).0.objects)
    ensures Replicate(d, w, copy).1 == Again
    ensures var v := Replicate(d, w, copy).0.deployment; v.Some? && v.value.deleting == w.deployment.value.deleting
  {
    ListSucceeds(w);
    var w1 := w.(tape := w.tape[1..]);
    var owned := ListOwned(w).2;
    var gap := Gap(d, |owned|);
    assert w1.tape[..gap] == w.tape[1..1 + gap] && w1.tape[gap] == w.tape[1 + gap];
    ScaleThenCount(d, w1, owned, copy, gap);
    ReplicateStages(d, w, copy, w1, owned, Scale(d, w1, owned).0);
  }

  /** An undisturbed pass over a live deployment is successful. */
  lemma PassSucceeds(d: Deployment, w: World)
    requires WellFormed(w) && Live(w) && Replicas(d) >= 0 && Undisturbed(d, w)
    ensures Reconcile(d, w).1 == Again && Live(Reconcile(d, w).0)
  {
    QuietCall(w);
    var w1 := w.(tape := w.tape[1..]);
    var gap := Gap(d, |Owned(w.objects)|);
    assert w1.tape[1..] == w.tape[2..] && w1.tape[1..1 + gap] == w.tape[2..2 + gap];
    ReplicateSucceeds(d, w1, w.deployment.value);
  }

  lemma {:induction false} GentleKeepsLive(w: World, events: seq<Event>)
    requires Live(w) && AllGentle(events)
    ensures Live(ApplyAll(w, events))
    decreases |events|
  {
    if events != [] {
      GentleKeepsLive(Apply(w, events[0]), events[1..]);
    }
  }

  lemma SecondPass(d: Deployment, w: World, between: seq<Event>, second: seq<Choice>)
    requires WellFormed(w) && Live(w) && Replicas(d) >= 0 && |Staying(w.objects)| <= Replicas(d) && AllGentle(between)
    ensures var v := ApplyAll(w, between);
      Staying(v.objects) == Owned(v.objects) && Undisturbed(d, v.(tape := second)) ==>
        Settled(d, Step(d, v, Pass(second)))
  {
    GentleEvents(w, between);
    GentleKeepsLive(w, between);
    var v := ApplyAll(w, between);
    if Staying(v.objects) == Owned(v.objects) && Undisturbed(d, v.(tape := second)) {
      assert GentleTape(second);
      PassSucceeds(d, v.(tape := second));
      PassReaches(d, v.(tape := second));
    }
  }

  /** From any state at all: an undisturbed pass, then events that leave no child on its way out, then
      another undisturbed pass, and exactly R children exist. */
  lemma Converges(d: Deployment, w: World, first: seq<Choice>, between: seq<Event>, second: seq<Choice>)
    requires WellFormed(w) && Live(w) && Replicas(d) >= 0
    requires Undisturbed(d, w.(tape := first)) && AllGentle(between)
    ensures var v := ApplyAll(Step(d, w, Pass(first)), between);
      Staying(v.objects) == Owned(v.objects) && Undisturbed(d, v.(tape := second)) ==>
        Settled(d, Step(d, v, Pass(second)))
  {
    var x := w.(tape := first);
    assert WellFormed(x) && GentleTape(first);
    PassSucceeds(d, x);
    PassReaches(d, x);
    SecondPass(d, Step(d, w, Pass(first)), between, second);
  }

  lemma SettledReplicate(d: Deployment, w: World, copy: Stored)
    requires Settled(d, w) && GentleTape(w.tape)
    ensures var v := Replicate(d, w, copy).0;
      Settled(d, v) && v.log == w.log && Owned(v.objects) == Owned(w.objects)
  {
    GentleAwait(w);
    var (w1, err, listing) := List(w);
    SameOwned(w, w1);
    if err == Ok {
      ListShows(AnyOrder(), listing, w1.objects);
      var owned := SortByAge(OwnedItems(listing, w1.objects));
      assert Scale(d, w1, owned) == (w1, None);
      CountLeavesChildren(w1, copy);
      SameOwned(w1, Count(w1, copy).0);
    }
  }

  /** A settled deployment is left alone: no later pass, successful or not, creates or deletes anything. */
  lemma SettledPass(d: Deployment, w: World)
    requires Settled(d, w) && GentleTape(w.tape)
    ensures var v := Reconcile(d, w).0;
      Settled(d, v) && v.log == w.log && Owned(v.objects) == Owned(w.objects)
  {
    GentleAwait(w);
    var (w1, err, got) := Get(w);
    SameOwned(w, w1);
    if err == Ok && !got.value.deleting {
      SettledReplicate(d, w1, got.value);
    }
  }

  ghost predicate GentleMove(m: Move) {
    match m
    case Pass(tape) => GentleTape(tape)
    case Outside(event) => Gentle(event)
  }

  lemma {:induction false} SettledStays(d: Deployment, w: World, moves: seq<Move>)
    requires Settled(d, w) && forall i :: 0 <= i < |moves| ==> GentleMove(moves[i])
    ensures var v := Run(d, w, moves);
      Settled(d, v) && v.log == w.log && Owned(v.objects) == Owned(w.objects)
    decreases |moves|
  {
    if moves != [] {
      assert GentleMove(moves[0]);
      match moves[0] {
        case Pass(tape) =>
          SettledPass(d, w.(tape := tape));
        case Outside(event) =>
          GentleEvent(w, event);
          SameOwned(w, Apply(w, event));
      }
      SettledStays(d, Step(d, w, moves[0]), moves[1..]);
    }
  }

  // ---- What is asked for ----

  /** A settled deployment has the replicas that it asks for, and one if it does not say. */
  lemma SettledCount(d: Deployment, w: World)
    requires Settled(d, w)
    ensures |Owned(w.objects)| == (if d.replicas.Some? then d.replicas.value else 1)
  {
  }

  /** A deployment that is being deleted or does not exist is left alone, without complaint. */
  lemma DeletingIsLeft(d: Deployment, w: World)
    requires AllDone(w.tape) && w.tape != [] && (w.deployment.Some? ==> w.deployment.value.deleting)
    ensures var (v, result) := Reconcile(d, w); v == w.(tape := v.tape) && result == Finished
  {
    QuietCall(w);
  }
}
