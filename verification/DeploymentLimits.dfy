/** What the controller of a DockerDeployment can delete at worst: the other half of OldestAreSafe. */
module DeploymentLimits {
  import opened Go
  import opened DockerEngine
  import opened DeploymentModel
  import opened DeploymentProofs

  ghost predicate Live(w: World) {
    w.deployment.Some? && !w.deployment.value.deleting
  }

  ghost predicate DistinctUids(w: World) {
    forall m, n :: m in w.objects && n in w.objects && w.objects[m].uid == w.objects[n].uid ==> m == n
  }

  // ---- A pass that meets no trouble deletes everything past rank R ----

  ghost predicate AllDone(tape: seq<Choice>) {
    forall i :: 0 <= i < |tape| ==> tape[i].before == [] && tape[i].outcome == Done
  }

  ghost predicate Listed(w: World, owned: seq<Item>) {
    && (forall i, j :: 0 <= i < j < |owned| ==> owned[i].name != owned[j].name)
    && (forall i :: 0 <= i < |owned| ==>
          owned[i].name in w.objects && w.objects[owned[i].name].uid == owned[i].child.uid)
  }

  lemma QuietDelete(w: World, name: string)
    requires w.tape != [] && AllDone(w.tape) && name in w.objects
    ensures var (v, err) := DeleteChild(w, name); var m := Mark(w, name);
      && err == Ok && v.objects == m.objects && v.tape == w.tape[1..]
      && v.deployment == w.deployment && v.nextUid == w.nextUid
      && v.log.condemned == w.log.condemned + {w.objects[name].uid}
  {
    var w1 := w.(tape := w.tape[1..]);
    assert ApplyAll(w1, []) == w1;
    assert Await(w) == (w1, w.tape[0]);
  }

  lemma ListedButLast(w: World, v: World, owned: seq<Item>)
    requires Listed(w, owned) && owned != []
    requires forall n :: n in w.objects && n != owned[|owned| - 1].name ==>
               n in v.objects && v.objects[n] == w.objects[n]
    ensures Listed(v, owned[..|owned| - 1])
  {
  }

  lemma {:induction false} ScaleDownHits(w: World, owned: seq<Item>, count: nat)
    requires count <= |owned| && Listed(w, owned)
    requires |w.tape| == count && AllDone(w.tape)
    ensures var (v, stop) := ScaleDown(w, owned, count);
      && stop == None && v.tape == [] && v.deployment == w.deployment
      && w.log.condemned <= v.log.condemned
      && forall p :: |owned| - count <= p < |owned| ==> owned[p].child.uid in v.log.condemned
    decreases count
  {
    if count > 0 {
      var k := |owned| - 1;
      QuietDelete(w, owned[k].name);
      var v := DeleteChild(w, owned[k].name).0;
      ListedButLast(w, v, owned);
      ScaleDownHits(v, owned[..k], count - 1);
      forall p | |owned| - count <= p < k
        ensures owned[p].child.uid in ScaleDown(w, owned, count).0.log.condemned
      {
        assert owned[..k][p] == owned[p];
      }
    }
  }

  /** Every child is held by a finalizer, as it is once the container controller has seen it. */
  ghost predicate Lingers(w: World) {
    forall n :: n in Owned(w.objects) ==> w.objects[n].finalizer
  }

  /** Nothing but deletion marks has changed. */
  ghost predicate SameChildren(w: World, v: World) {
    && v.objects.Keys == w.objects.Keys
    && (forall n :: n in w.objects ==> v.objects[n] == w.objects[n].(deleting := v.objects[n].deleting))
    && v.nextUid == w.nextUid && v.deployment == w.deployment && w.log.condemned <= v.log.condemned
  }

  lemma SameChildrenTransitive(u: World, v: World, w: World)
    requires SameChildren(u, v) && SameChildren(v, w)
    ensures SameChildren(u, w)
  {
  }

  lemma {:induction false} ScaleDownLingers(w: World, owned: seq<Item>, count: nat)
    requires count <= |owned| && Listed(w, owned) && |w.tape| == count && AllDone(w.tape)
    requires forall i :: 0 <= i < |owned| ==> w.objects[owned[i].name].finalizer
    ensures SameChildren(w, ScaleDown(w, owned, count).0)
    decreases count
  {
    if count > 0 {
      var k := |owned| - 1;
      QuietDelete(w, owned[k].name);
      var v := DeleteChild(w, owned[k].name).0;
      assert SameChildren(w, v);
      ListedButLast(w, v, owned);
      ScaleDownLingers(v, owned[..k], count - 1);
      SameChildrenTransitive(w, v, ScaleDown(v, owned[..k], count - 1).0);
    }
  }

  function Quiet(listing: seq<string>): Choice {
    Choice([], Done, listing, "")
  }

  /** Read the deployment, list, delete so often, and crash. */
  ghost function DeletingTape(listing: seq<string>, count: nat): seq<Choice> {
    [Quiet(listing), Quiet(listing)] + seq(count, _ => Quiet(listing))
  }

  /** The first two calls of such a pass show the deployment and its children. */
  lemma ReadsAll(d: Deployment, w: World, listing: seq<string>, count: nat)
    requires Live(w) && IsListing(listing, w.objects)
    ensures var w0 := w.(tape := DeletingTape(listing, count));
      var w2 := w.(tape := DeletingTape(listing, count)[2..]);
      && Get(w0).1 == Ok && Get(w0).2 == w.deployment
      && ListOwned(Get(w0).0) == (w2, Ok, SortByAge(OwnedItems(listing, w.objects)))
  {
    var w0 := w.(tape := DeletingTape(listing, count));
    var w1 := w.(tape := w0.tape[1..]);
    assert Await(w0) == (w1, Quiet(listing));
    assert w1.tape[1..] == w0.tape[2..];
    assert Await(w1) == (w.(tape := w0.tape[2..]), Quiet(listing));
  }

  lemma ListedByCall(w: World, listing: seq<string>)
    requires IsListing(listing, w.objects)
    ensures var owned := SortByAge(OwnedItems(listing, w.objects));
      Listed(w, owned) && |owned| == |Owned(w.objects)|
  {
    var owned := SortByAge(OwnedItems(listing, w.objects));
    ListShows(AnyOrder(), listing, w.objects);
    forall i, j | 0 <= i < j < |owned| ensures owned[i].name != owned[j].name {
      assert Precedes(AnyOrder(), owned[i], owned[j]);
    }
    forall i | 0 <= i < |owned|
      ensures owned[i].name in w.objects && w.objects[owned[i].name] == owned[i].child
    {
      assert owned[i] in owned;
    }
  }

  lemma ScaleHits(d: Deployment, w: World, owned: seq<Item>)
    requires 0 <= Replicas(d) < |owned| < TWO_31 && Listed(w, owned)
    requires |w.tape| == |owned| - Replicas(d) && AllDone(w.tape)
    ensures var (v, stop) := Scale(d, w, owned);
      && stop == None && v.tape == []
      && (forall p :: Replicas(d) <= p < |owned| ==> owned[p].child.uid in v.log.condemned)
      && ((forall i :: 0 <= i < |owned| ==> w.objects[owned[i].name].finalizer) ==> SameChildren(w, v))
  {
    var count := |owned| - Replicas(d);
    ScaleDownHits(w, owned, count);
    if forall i :: 0 <= i < |owned| ==> w.objects[owned[i].name].finalizer {
      ScaleDownLingers(w, owned, count);
    }
    assert Int32(Replicas(d) - Int32(|owned|)) == -count;
  }

  /** A pass that crashes after scaling leaves what scaling left. */
  lemma CrashAfterScale(d: Deployment, w: World, owned: seq<Item>)
    requires Live(w) && Get(w).1 == Ok && Get(w).2 == w.deployment
    requires ListOwned(Get(w).0).1 == Ok && ListOwned(Get(w).0).2 == owned
    requires Scale(d, ListOwned(Get(w).0).0, owned).1 == None
    requires Scale(d, ListOwned(Get(w).0).0, owned).0.tape == []
    ensures Reconcile(d, w).0 == Scale(d, ListOwned(Get(w).0).0, owned).0
  {
  }

  lemma PassDeletes(d: Deployment, w: World, listing: seq<string>, owned: seq<Item>, p: nat)
    requires WellFormed(w) && Live(w) && IsListing(listing, w.objects)
    requires owned == SortByAge(OwnedItems(listing, w.objects)) && 0 <= Replicas(d) <= p < |owned|
    ensures owned[p].child.uid in Step(d, w, Pass(DeletingTape(listing, |owned| - Replicas(d)))).log.condemned
    ensures Lingers(w) ==> SameChildren(w, Step(d, w, Pass(DeletingTape(listing, |owned| - Replicas(d)))))
  {
    var tape := DeletingTape(listing, |owned| - Replicas(d));
    ListedByCall(w, listing);
    ReadsAll(d, w, listing, |owned| - Replicas(d));
    ListShows(AnyOrder(), listing, w.objects);
    forall i | 0 <= i < |owned| ensures Shows(w.objects, owned[i]) {
      assert owned[i] in owned;
    }
    ScaleHits(d, w.(tape := tape[2..]), owned);
    CrashAfterScale(d, w.(tape := tape), owned);
  }

  lemma IndexReachesRank(
    listed: (string, string) -> bool, tie: (string, string) -> bool, objects: map<string, Child>, s: seq<Item>, p: nat)
    requires InOrder(listed, s) && p < |s| && forall x :: x in s <==> Shows(objects, x)
    requires Shows(objects, s[p])
    requires forall n :: n in Ahead(tie, objects, s[p].name) ==> !Precedes(listed, s[p], Item(n, objects[n]))
    ensures |Ahead(tie, objects, s[p].name)| <= p
  {
    CountNames(listed, s[..p]);
    var ahead := Ahead(tie, objects, s[p].name);
    forall q | p < q < |s| ensures s[q].name !in ahead {
      assert s[q] in s && Precedes(listed, s[p], s[q]);
    }
    forall n | n in ahead ensures n in Names(s[..p]) {
      assert Shows(objects, Item(n, objects[n]));
      var q :| 0 <= q < |s| && s[q] == Item(n, objects[n]);
      assert s[..p][q] == s[q];
    }
    Smaller(ahead, Names(s[..p]));
  }

  lemma RankReached(
    listed: (string, string) -> bool, tie: (string, string) -> bool, objects: map<string, Child>,
    listing: seq<string>, owned: seq<Item>, p: nat)
    requires IsListing(listing, objects) && Respects(listed, listing)
    requires owned == SortByAge(OwnedItems(listing, objects)) && p < |owned| && Shows(objects, owned[p])
    requires forall n :: n in Ahead(tie, objects, owned[p].name) ==>
               !Precedes(listed, owned[p], Item(n, objects[n]))
    ensures |Ahead(tie, objects, owned[p].name)| <= p
  {
    ListShows(listed, listing, objects);
    IndexReachesRank(listed, tie, objects, owned, p);
  }

  lemma IndexOf(objects: map<string, Child>, listing: seq<string>, name: string) returns (p: nat)
    requires IsListing(listing, objects) && name in Owned(objects)
    ensures var owned := SortByAge(OwnedItems(listing, objects));
      p < |owned| && owned[p] == Item(name, objects[name])
  {
    var owned := SortByAge(OwnedItems(listing, objects));
    ListShows(AnyOrder(), listing, objects);
    assert Shows(objects, Item(name, objects[name]));
    p :| 0 <= p < |owned| && owned[p] == Item(name, objects[name]);
  }

  /** A listing that can put the child behind all that tie allows before it dooms it. */
  lemma RankDooms(
    listed: (string, string) -> bool, tie: (string, string) -> bool, d: Deployment, w: World,
    listing: seq<string>, name: string) returns (tape: seq<Choice>)
    requires WellFormed(w) && Live(w) && name in Owned(w.objects)
    requires IsListing(listing, w.objects) && Respects(listed, listing)
    requires forall n :: n in Ahead(tie, w.objects, name) ==>
               !Precedes(listed, Item(name, w.objects[name]), Item(n, w.objects[n]))
    requires 0 <= Replicas(d) <= |Ahead(tie, w.objects, name)|
    ensures w.objects[name].uid in Step(d, w, Pass(tape)).log.condemned
    ensures Lingers(w) ==> SameChildren(w, Step(d, w, Pass(tape)))
    ensures forall i :: 0 <= i < |tape| ==> tape[i].listing == listing
  {
    var owned := SortByAge(OwnedItems(listing, w.objects));
    var p := IndexOf(w.objects, listing, name);
    RankReached(listed, tie, w.objects, listing, owned, p);
    PassDeletes(d, w, listing, owned, p);
    tape := DeletingTape(listing, |owned| - Replicas(d));
  }

  lemma {:induction false} Enumerate(s: set<string>) returns (list: seq<string>)
    ensures forall i, j :: 0 <= i < j < |list| ==> list[i] != list[j]
    ensures forall n :: n in list <==> n in s
    decreases |s|
  {
    if s == {} {
      list := [];
    } else {
      var x :| x in s;
      var rest := Enumerate(s - {x});
      list := [x] + rest;
    }
  }

  lemma OnePass(d: Deployment, w: World, tape: seq<Choice>)
    ensures Run(d, w, [Pass(tape)]) == Step(d, w, Pass(tape))
  {
    assert [Pass(tape)][1..] == [];
    assert Run(d, Step(d, w, Pass(tape)), []) == Step(d, w, Pass(tape));
  }

  ghost predicate Untouched(w: World, name: string) {
    WellFormed(w) && DistinctUids(w) && name in Owned(w.objects) && w.objects[name].uid !in w.log.condemned
  }

  lemma PutLast(d: Deployment, w: World, name: string) returns (tape: seq<Choice>)
    requires WellFormed(w) && Live(w) && name in Owned(w.objects)
    requires 0 <= Replicas(d) <= |Ahead(AnyOrder(), w.objects, name)|
    ensures w.objects[name].uid in Step(d, w, Pass(tape)).log.condemned
    ensures Lingers(w) ==> SameChildren(w, Step(d, w, Pass(tape)))
  {
    var others := Enumerate(w.objects.Keys - {name});
    var listing := others + [name];
    var listed := (a: string, b: string) => a != name;
    assert IsListing(listing, w.objects);
    tape := RankDooms(listed, AnyOrder(), d, w, listing, name);
  }

  /** Nothing known of ties: some run deletes a child exactly if R others are not younger than it. */
  lemma DeletableExactly(d: Deployment, w: World, name: string)
    requires Live(w) && Untouched(w, name) && Replicas(d) >= 0
    ensures (exists moves :: w.objects[name].uid in Run(d, w, moves).log.condemned) <==>
            Replicas(d) <= |Ahead(AnyOrder(), w.objects, name)|
  {
    var uid := w.objects[name].uid;
    if Replicas(d) <= |Ahead(AnyOrder(), w.objects, name)| {
      var tape := PutLast(d, w, name);
      OnePass(d, w, tape);
    } else {
      forall moves ensures uid !in Run(d, w, moves).log.condemned {
        OldestAreSafe(AnyOrder(), d, w, moves, Ref(name, uid));
      }
    }
  }

  /** Ties always broken the same way: some run deletes a child exactly if R others come before it. */
  lemma FixedOrderExactly(tie: (string, string) -> bool, d: Deployment, w: World, listing: seq<string>, name: string)
    requires Live(w) && Untouched(w, name) && Replicas(d) >= 0
    requires forall a, b :: !(tie(a, b) && tie(b, a))
    requires IsListing(listing, w.objects) && Respects(tie, listing)
    ensures (exists moves :: RunRespects(tie, moves) && w.objects[name].uid in Run(d, w, moves).log.condemned) <==>
            Replicas(d) <= |Ahead(tie, w.objects, name)|
  {
    var uid := w.objects[name].uid;
    if Replicas(d) <= |Ahead(tie, w.objects, name)| {
      var tape := RankDooms(tie, tie, d, w, listing, name);
      OnePass(d, w, tape);
      assert RunRespects(tie, [Pass(tape)]);
    } else {
      forall moves | RunRespects(tie, moves) ensures uid !in Run(d, w, moves).log.condemned {
        OldestAreSafe(tie, d, w, moves, Ref(name, uid));
      }
    }
  }

  lemma SameRanks(w: World, v: World, name: string)
    requires SameChildren(w, v) && name in w.objects
    ensures Ahead(AnyOrder(), v.objects, name) == Ahead(AnyOrder(), w.objects, name)
  {
    forall n | n in w.objects
      ensures n in Ahead(AnyOrder(), v.objects, name) <==> n in Ahead(AnyOrder(), w.objects, name)
    {
      assert v.objects[n] == w.objects[n].(deleting := v.objects[n].deleting);
      assert v.objects[name] == w.objects[name].(deleting := v.objects[name].deleting);
    }
  }

  lemma SameChildrenKept(w: World, v: World)
    requires WellFormed(w) && Live(w) && Lingers(w) && SameChildren(w, v)
    ensures WellFormed(v) && Live(v) && Lingers(v) && Owned(v.objects) == Owned(w.objects)
  {
    forall n | n in w.objects
      ensures v.objects[n].uid == w.objects[n].uid
      ensures v.objects[n].controlled == w.objects[n].controlled
    {
      assert v.objects[n] == w.objects[n].(deleting := v.objects[n].deleting);
    }
    assert Owned(v.objects) == Owned(w.objects);
  }

  /** While the marked children linger they are still counted, so pass after pass can mark more. */
  lemma {:induction false} Sweep(d: Deployment, w: World, names: seq<string>) returns (moves: seq<Move>)
    requires WellFormed(w) && Live(w) && Lingers(w) && Replicas(d) >= 0
    requires forall n :: n in names ==>
               n in Owned(w.objects) && Replicas(d) <= |Ahead(AnyOrder(), w.objects, n)|
    ensures w.log.condemned <= Run(d, w, moves).log.condemned
    ensures forall n :: n in names ==> w.objects[n].uid in Run(d, w, moves).log.condemned
    decreases |names|
  {
    if names == [] {
      moves := [];
    } else {
      var tape := PutLast(d, w, names[0]);
      var v := Step(d, w, Pass(tape));
      SameChildrenKept(w, v);
      forall n | n in names ensures Ahead(AnyOrder(), v.objects, n) == Ahead(AnyOrder(), w.objects, n) {
        SameRanks(w, v, n);
      }
      forall n | n in names[1..] ensures n in names {}
      var rest := Sweep(d, v, names[1..]);
      moves := [Pass(tape)] + rest;
      assert moves[1..] == rest;
      assert Run(d, w, moves) == Run(d, v, rest);
      forall n | n in names ensures w.objects[n].uid in Run(d, w, moves).log.condemned {
        assert n == names[0] || n in names[1..];
        assert v.objects[n] == w.objects[n].(deleting := v.objects[n].deleting);
      }
    }
  }

  /** Where finalizers hold the children back, one single run deletes every child that it can delete at all. */
  lemma OneRunDeletesAll(d: Deployment, w: World)
    requires Live(w) && Lingers(w) && Replicas(d) >= 0 && WellFormed(w)
    requires forall n :: n in Owned(w.objects) ==> Untouched(w, n)
    ensures exists moves :: forall n :: n in Owned(w.objects) ==>
              (w.objects[n].uid in Run(d, w, moves).log.condemned <==>
               Replicas(d) <= |Ahead(AnyOrder(), w.objects, n)|)
  {
    var doomed := Enumerate(set n | n in Owned(w.objects) && Replicas(d) <= |Ahead(AnyOrder(), w.objects, n)|);
    var moves := Sweep(d, w, doomed);
    forall n | n in Owned(w.objects)
      ensures w.objects[n].uid in Run(d, w, moves).log.condemned <==>
              Replicas(d) <= |Ahead(AnyOrder(), w.objects, n)|
    {
      if |Ahead(AnyOrder(), w.objects, n)| < Replicas(d) {
        OldestAreSafe(AnyOrder(), d, w, moves, Ref(n, w.objects[n].uid));
      } else {
        assert n in doomed;
      }
    }
  }

  /** Children made in the same second, as a single scale-up makes them: asking for one fewer can delete all. */
  lemma SameSecondLosesAll(d: Deployment, w: World)
    requires Live(w) && Lingers(w) && WellFormed(w) && 0 <= Replicas(d) < |Owned(w.objects)|
    requires forall n :: n in Owned(w.objects) ==> Untouched(w, n)
    requires forall m, n :: m in Owned(w.objects) && n in Owned(w.objects) ==>
               w.objects[m].created == w.objects[n].created
    ensures exists moves :: forall n :: n in Owned(w.objects) ==>
              w.objects[n].uid in Run(d, w, moves).log.condemned
  {
    OneRunDeletesAll(d, w);
    forall n | n in Owned(w.objects) ensures Replicas(d) <= |Ahead(AnyOrder(), w.objects, n)| {
      assert Ahead(AnyOrder(), w.objects, n) == Owned(w.objects) - {n};
    }
  }
}
