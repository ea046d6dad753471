/** Which children of a DockerDeployment the controller can ever delete, over all runs. */
module DeploymentProofs {
  import opened Go
  import opened DockerEngine
  import opened DeploymentModel

  // ---- What a list call shows ----

  ghost predicate Shows(objects: map<string, Child>, x: Item) {
    x.name in objects && objects[x.name] == x.child && x.child.controlled
  }

  ghost function Owned(objects: map<string, Child>): set<string> {
    set n | n in objects && objects[n].controlled
  }

  /** May a be listed before b, when tie says which of two children of the same second may come first? */
  ghost predicate Precedes(tie: (string, string) -> bool, a: Item, b: Item) {
    && a.name != b.name
    && (a.child.created < b.child.created || (a.child.created == b.child.created && tie(a.name, b.name)))
  }

  ghost predicate InOrder(tie: (string, string) -> bool, s: seq<Item>) {
    forall i, j :: 0 <= i < j < |s| ==> Precedes(tie, s[i], s[j])
  }

  /** The listing returns two names in this order only where tie allows it. */
  ghost predicate Respects(tie: (string, string) -> bool, listing: seq<string>) {
    forall i, j :: 0 <= i < j < |listing| ==> tie(listing[i], listing[j])
  }

  lemma {:induction false} InsertInOrder(tie: (string, string) -> bool, x: Item, s: seq<Item>)
    requires InOrder(tie, s)
    requires forall y :: y in s ==> x.name != y.name && tie(x.name, y.name)
    ensures var r := InsertByAge(x, s);
      InOrder(tie, r) && |r| == |s| + 1 && forall y :: y in r <==> y == x || y in s
  {
    if s == [] || x.child.created <= s[0].child.created {
      var r := [x] + s;
      assert InsertByAge(x, s) == r;
      forall j | 0 < j < |r| ensures Precedes(tie, r[0], r[j]) {
        assert r[j] == s[j - 1] && r[j] in s;
        assert j == 1 || Precedes(tie, s[0], s[j - 1]);
      }
    } else {
      InsertInOrder(tie, x, s[1..]);
      var rest := InsertByAge(x, s[1..]);
      var r := [s[0]] + rest;
      assert s == [s[0]] + s[1..];
      forall j | 0 < j < |r| ensures Precedes(tie, r[0], r[j]) {
        assert r[j] == rest[j - 1] && r[j] in rest;
        if r[j] != x {
          var k :| 0 <= k < |s| - 1 && s[1..][k] == r[j];
          assert Precedes(tie, s[0], s[k + 1]);
        }
      }
    }
  }

  ghost predicate Apart(tie: (string, string) -> bool, s: seq<Item>) {
    forall i, j :: 0 <= i < j < |s| ==> s[i].name != s[j].name && tie(s[i].name, s[j].name)
  }

  lemma {:induction false} SortInOrder(tie: (string, string) -> bool, s: seq<Item>)
    requires Apart(tie, s)
    ensures var r := SortByAge(s); InOrder(tie, r) && |r| == |s| && forall y :: y in r <==> y in s
  {
    if s != [] {
      SortInOrder(tie, s[1..]);
      assert s == [s[0]] + s[1..];
      forall y | y in SortByAge(s[1..]) ensures s[0].name != y.name && tie(s[0].name, y.name) {
        var k :| 0 <= k < |s| - 1 && s[1..][k] == y;
        assert s[k + 1] == y;
      }
      InsertInOrder(tie, s[0], SortByAge(s[1..]));
    }
  }

  lemma ApartCons(tie: (string, string) -> bool, first: Item, rest: seq<Item>)
    requires Apart(tie, rest) && forall y :: y in rest ==> first.name != y.name && tie(first.name, y.name)
    ensures Apart(tie, [first] + rest)
  {
    var s := [first] + rest;
    forall j | 0 < j < |s| ensures s[0].name != s[j].name && tie(s[0].name, s[j].name) {
      assert s[j] in rest;
    }
  }

  lemma {:induction false} OwnedItemsShow(
    tie: (string, string) -> bool, listing: seq<string>, objects: map<string, Child>)
    requires forall i, j :: 0 <= i < j < |listing| ==> listing[i] != listing[j]
    requires forall n :: n in listing ==> n in objects
    requires Respects(tie, listing)
    ensures var s := OwnedItems(listing, objects);
      Apart(tie, s) && forall x :: x in s <==> x.name in listing && Shows(objects, x)
  {
    if listing != [] {
      OwnedItemsShow(tie, listing[1..], objects);
      var rest := OwnedItems(listing[1..], objects);
      var first := Item(listing[0], objects[listing[0]]);
      forall n | n in listing[1..] ensures n != listing[0] && tie(listing[0], n) {
        var k :| 0 <= k < |listing| - 1 && listing[1..][k] == n;
        assert listing[k + 1] == n;
      }
      assert listing == [listing[0]] + listing[1..];
      if first.child.controlled {
        ApartCons(tie, first, rest);
      }
    }
  }

  ghost function Names(s: seq<Item>): set<string> {
    set x | x in s :: x.name
  }

  lemma {:induction false} CountNames(tie: (string, string) -> bool, s: seq<Item>)
    requires InOrder(tie, s)
    ensures |Names(s)| == |s|
  {
    if s == [] {
      assert Names(s) == {};
    } else {
      var k := |s| - 1;
      CountNames(tie, s[..k]);
      assert s == s[..k] + [s[k]];
      forall x | x in s[..k] ensures x.name != s[k].name {
        var i :| 0 <= i < k && s[i] == x;
        assert Precedes(tie, s[i], s[k]);
      }
      assert s[k].name !in Names(s[..k]);
      assert Names(s) == Names(s[..k]) + {s[k].name};
    }
  }

  lemma ListShows(tie: (string, string) -> bool, listing: seq<string>, objects: map<string, Child>)
    requires IsListing(listing, objects) && Respects(tie, listing)
    ensures var s := SortByAge(OwnedItems(listing, objects));
      InOrder(tie, s) && |s| == |Owned(objects)| && forall x :: x in s <==> Shows(objects, x)
  {
    OwnedItemsShow(tie, listing, objects);
    SortInOrder(tie, OwnedItems(listing, objects));
    var s := SortByAge(OwnedItems(listing, objects));
    CountNames(tie, s);
    forall n | n in Owned(objects) ensures n in Names(s) {
      assert Shows(objects, Item(n, objects[n]));
    }
    assert Names(s) == Owned(objects);
  }

  // ---- Rank ----

  /** The children that may be listed before the one of this name. */
  ghost function Ahead(tie: (string, string) -> bool, objects: map<string, Child>, name: string): set<string>
    requires name in objects
  {
    set n | n in objects && objects[n].controlled
            && Precedes(tie, Item(n, objects[n]), Item(name, objects[name]))
  }

  /** Nothing is known about how ties are broken. */
  ghost function AnyOrder(): (string, string) -> bool {
    (a, b) => true
  }

  lemma Smaller<T>(a: set<T>, b: set<T>)
    requires a <= b
    ensures |a| <= |b|
  {
    assert b == a + (b - a);
  }

  lemma RankBoundsIndex(tie: (string, string) -> bool, objects: map<string, Child>, s: seq<Item>, p: nat)
    requires InOrder(tie, s) && p < |s| && forall x :: x in s <==> Shows(objects, x)
    ensures Shows(objects, s[p]) && p <= |Ahead(tie, objects, s[p].name)|
  {
    assert s[p] in s;
    CountNames(tie, s[..p]);
    forall n | n in Names(s[..p]) ensures n in Ahead(tie, objects, s[p].name) {
      var i :| 0 <= i < p && s[i].name == n;
      assert s[i] in s && Precedes(tie, s[i], s[p]);
    }
    Smaller(Names(s[..p]), Ahead(tie, objects, s[p].name));
  }

  // ---- What the world may do to a child by itself ----

  ghost predicate WellFormed(w: World) {
    && |Owned(w.objects)| < TWO_31
    && forall n :: n in w.objects ==> w.objects[n].uid < w.nextUid
  }

  ghost predicate Kept(before: World, after: World, n: string)
    requires n in after.objects
  {
    || (&& n in before.objects
        && after.objects[n].uid == before.objects[n].uid
        && after.objects[n].created == before.objects[n].created
        && after.objects[n].controlled == before.objects[n].controlled)
    || (after.objects[n].uid >= before.nextUid && !after.objects[n].controlled)
  }

  /** Objects come only from outsiders, and none that stays changes its identity. */
  ghost predicate Inherits(before: World, after: World) {
    && after.nextUid >= before.nextUid
    && after.log == before.log
    && (forall n :: n in after.objects ==> Kept(before, after, n) && after.objects[n].uid < after.nextUid)
  }

  lemma InheritsWellFormed(w: World, v: World)
    requires WellFormed(w) && Inherits(w, v)
    ensures WellFormed(v)
  {
    forall n | n in Owned(v.objects) ensures n in Owned(w.objects) {
      assert Kept(w, v, n);
    }
    Smaller(Owned(v.objects), Owned(w.objects));
  }

  lemma EventInherits(w: World, e: Event)
    requires WellFormed(w)
    ensures Inherits(w, Apply(w, e)) && WellFormed(Apply(w, e))
  {
    InheritsWellFormed(w, Apply(w, e));
  }

  lemma InheritsTransitive(a: World, b: World, c: World)
    requires Inherits(a, b) && Inherits(b, c)
    ensures Inherits(a, c)
  {
    forall n | n in c.objects ensures Kept(a, c, n) {
      assert Kept(b, c, n);
      if n in b.objects {
        assert Kept(a, b, n);
      }
    }
  }

  lemma {:induction false} EventsInherit(w: World, events: seq<Event>)
    requires WellFormed(w)
    ensures Inherits(w, ApplyAll(w, events)) && WellFormed(ApplyAll(w, events))
    decreases |events|
  {
    if events != [] {
      var v := Apply(w, events[0]);
      EventInherits(w, events[0]);
      EventsInherit(v, events[1..]);
      InheritsTransitive(w, v, ApplyAll(v, events[1..]));
    }
  }

  lemma AwaitInherits(w: World)
    requires WellFormed(w)
    ensures Inherits(w, Await(w).0) && WellFormed(Await(w).0)
  {
    if w.tape != [] {
      EventsInherit(w.(tape := w.tape[1..]), w.tape[0].before);
    }
  }

  // ---- Safety ----

  /** A child, told apart from any later one of the same name by its UID. */
  datatype Ref = Ref(name: string, uid: nat)

  ghost predicate Present(w: World, c: Ref) {
    c.name in w.objects && w.objects[c.name].uid == c.uid
  }

  /** The child has not been condemned, and fewer than R children may be listed before it. */
  ghost predicate Safe(tie: (string, string) -> bool, d: Deployment, w: World, c: Ref) {
    && WellFormed(w) && c.uid < w.nextUid && c.uid !in w.log.condemned
    && (forall n :: n in w.objects && w.objects[n].uid == c.uid ==> n == c.name)
    && (Present(w, c) ==> w.objects[c.name].controlled && |Ahead(tie, w.objects, c.name)| < Replicas(d))
  }

  lemma InheritsKeepsSafe(tie: (string, string) -> bool, d: Deployment, w: World, v: World, c: Ref)
    requires Safe(tie, d, w, c) && Inherits(w, v)
    ensures Safe(tie, d, v, c)
  {
    InheritsWellFormed(w, v);
    forall n | n in v.objects && v.objects[n].uid == c.uid ensures n == c.name {
      assert Kept(w, v, n);
    }
    if Present(v, c) {
      assert Kept(w, v, c.name);
      forall n | n in Ahead(tie, v.objects, c.name) ensures n in Ahead(tie, w.objects, c.name) {
        assert Kept(w, v, n);
      }
      Smaller(Ahead(tie, v.objects, c.name), Ahead(tie, w.objects, c.name));
    }
  }

  lemma AwaitKeepsSafe(tie: (string, string) -> bool, d: Deployment, w: World, c: Ref)
    requires Safe(tie, d, w, c)
    ensures Safe(tie, d, Await(w).0, c)
  {
    AwaitInherits(w);
    InheritsKeepsSafe(tie, d, w, Await(w).0, c);
  }

  lemma InheritsOwned(w: World, v: World)
    requires Inherits(w, v)
    ensures Owned(v.objects) <= Owned(w.objects) && |Owned(v.objects)| <= |Owned(w.objects)|
  {
    forall n | n in Owned(v.objects) ensures n in Owned(w.objects) {
      assert Kept(w, v, n);
    }
    Smaller(Owned(v.objects), Owned(w.objects));
  }

  lemma AddKeepsSafe(
    tie: (string, string) -> bool, d: Deployment, w: World, v: World, name: string, child: Child, c: Ref)
    requires Safe(tie, d, w, c) && |Owned(w.objects)| < Replicas(d)
    requires name !in w.objects && child.controlled && child.uid == w.nextUid
    requires v.objects == w.objects[name := child] && v.nextUid == w.nextUid + 1
    requires v.log.condemned == w.log.condemned
    ensures Safe(tie, d, v, c) && |Owned(v.objects)| == |Owned(w.objects)| + 1
  {
    assert Owned(v.objects) == Owned(w.objects) + {name};
    if Present(v, c) {
      var ahead := Ahead(tie, v.objects, c.name);
      Smaller(ahead + {c.name}, Owned(v.objects));
    }
  }

  /** Creating a child while fewer than R exist pushes nobody past rank R. */
  lemma CreateKeepsSafe(tie: (string, string) -> bool, d: Deployment, w: World, c: Ref)
    requires Safe(tie, d, w, c) && |Owned(w.objects)| < Replicas(d)
    ensures var v := CreateChild(d, w).0; Safe(tie, d, v, c) && |Owned(v.objects)| <= |Owned(w.objects)| + 1
  {
    AwaitKeepsSafe(tie, d, w, c);
    AwaitInherits(w);
    var (w1, call) := Await(w);
    InheritsOwned(w, w1);
    var name := ChildName(d, call.suffix);
    if call.outcome != Refused && name !in w1.objects {
      AddKeepsSafe(tie, d, w1, CreateChild(d, w).0, name, NewChild(d, w1, call.suffix), c);
    }
  }

  lemma {:induction false} ScaleUpKeepsSafe(tie: (string, string) -> bool, d: Deployment, w: World, count: nat, c: Ref)
    requires Safe(tie, d, w, c) && |Owned(w.objects)| + count <= Replicas(d)
    ensures Safe(tie, d, ScaleUp(d, w, count).0, c)
    decreases count
  {
    if count > 0 {
      CreateKeepsSafe(tie, d, w, c);
      if CreateChild(d, w).1 == Ok {
        ScaleUpKeepsSafe(tie, d, CreateChild(d, w).0, count - 1, c);
      }
    }
  }

  /** A deletion of another name, or one issued after the child is gone, does not reach it. */
  lemma DeleteKeepsSafe(tie: (string, string) -> bool, d: Deployment, w: World, name: string, c: Ref)
    requires Safe(tie, d, w, c) && (Present(w, c) ==> name != c.name)
    ensures var v := DeleteChild(w, name).0; Safe(tie, d, v, c) && (Present(v, c) ==> Present(w, c))
  {
    AwaitKeepsSafe(tie, d, w, c);
    AwaitInherits(w);
    var (w1, call) := Await(w);
    if Present(w1, c) {
      assert Kept(w, w1, c.name);
    }
    if call.outcome != Refused && name in w1.objects {
      var v := Mark(w1, name);
      assert Inherits(w1, v);
      InheritsKeepsSafe(tie, d, w1, v, c);
      assert w1.objects[name].uid != c.uid;
    }
  }

  lemma {:induction false} ScaleDownKeepsSafe(
    tie: (string, string) -> bool, d: Deployment, w: World, owned: seq<Item>, count: nat, c: Ref)
    requires Safe(tie, d, w, c)
    requires Present(w, c) ==> forall i :: |owned| - count <= i < |owned| && 0 <= i ==> owned[i].name != c.name
    ensures Safe(tie, d, ScaleDown(w, owned, count).0, c)
    decreases count
  {
    if count > 0 && owned != [] {
      var k := |owned| - 1;
      DeleteKeepsSafe(tie, d, w, owned[k].name, c);
      var v := DeleteChild(w, owned[k].name).0;
      ScaleDownKeepsSafe(tie, d, v, owned[..k], count - 1, c);
    }
  }

  /** The victims are children that R others are listed before. */
  lemma VictimsRankLow(tie: (string, string) -> bool, d: Deployment, w: World, owned: seq<Item>, c: Ref)
    requires Safe(tie, d, w, c) && 0 <= Replicas(d) <= |owned|
    requires InOrder(tie, owned) && forall x :: x in owned <==> Shows(w.objects, x)
    ensures Present(w, c) ==> forall i :: Replicas(d) <= i < |owned| ==> owned[i].name != c.name
  {
    if Present(w, c) {
      forall i | Replicas(d) <= i < |owned| ensures owned[i].name != c.name {
        RankBoundsIndex(tie, w.objects, owned, i);
      }
    }
  }

  lemma ScaleKeepsSafe(tie: (string, string) -> bool, d: Deployment, w: World, listing: seq<string>, c: Ref)
    requires Safe(tie, d, w, c) && Replicas(d) >= 0
    requires IsListing(listing, w.objects) && Respects(tie, listing)
    ensures Safe(tie, d, Scale(d, w, SortByAge(OwnedItems(listing, w.objects))).0, c)
  {
    ListShows(tie, listing, w.objects);
    var owned := SortByAge(OwnedItems(listing, w.objects));
    var diff: int := Replicas(d) - |owned|;
    assert Int32(Replicas(d) - Int32(|owned|)) == diff;
    if diff > 0 {
      ScaleUpKeepsSafe(tie, d, w, diff, c);
    } else if diff < 0 {
      VictimsRankLow(tie, d, w, owned, c);
      ScaleDownKeepsSafe(tie, d, w, owned, -diff, c);
    }
  }

  ghost predicate TapeRespects(tie: (string, string) -> bool, tape: seq<Choice>) {
    forall i :: 0 <= i < |tape| ==> Respects(tie, tape[i].listing)
  }

  /** Events leave the tape and the counters alone. */
  lemma {:induction false} EventsKeepTape(w: World, events: seq<Event>)
    ensures ApplyAll(w, events).tape == w.tape && ApplyAll(w, events).log == w.log
    decreases |events|
  {
    if events != [] {
      EventsKeepTape(Apply(w, events[0]), events[1..]);
    }
  }

  lemma AwaitTape(w: World)
    ensures Await(w).0.tape == if w.tape == [] then [] else w.tape[1..]
    ensures w.tape != [] ==> Await(w).1 == w.tape[0]
    ensures Await(w).0.log == w.log
  {
    if w.tape != [] {
      EventsKeepTape(w.(tape := w.tape[1..]), w.tape[0].before);
    }
  }

  lemma CountKeepsSafe(tie: (string, string) -> bool, d: Deployment, w: World, copy: Stored, c: Ref)
    requires Safe(tie, d, w, c)
    ensures Safe(tie, d, Count(w, copy).0, c)
  {
    AwaitKeepsSafe(tie, d, w, c);
    AwaitKeepsSafe(tie, d, Await(w).0, c);
  }

  lemma ReplicateKeepsSafe(tie: (string, string) -> bool, d: Deployment, w: World, copy: Stored, c: Ref)
    requires Safe(tie, d, w, c) && Replicas(d) >= 0 && TapeRespects(tie, w.tape)
    ensures Safe(tie, d, Replicate(d, w, copy).0, c)
  {
    AwaitKeepsSafe(tie, d, w, c);
    AwaitTape(w);
    var (w1, err, listing) := List(w);
    if err == Ok {
      ScaleKeepsSafe(tie, d, w1, listing, c);
      var owned := SortByAge(OwnedItems(listing, w1.objects));
      CountKeepsSafe(tie, d, Scale(d, w1, owned).0, copy, c);
    }
  }

  lemma PassKeepsSafe(tie: (string, string) -> bool, d: Deployment, w: World, c: Ref)
    requires Safe(tie, d, w, c) && Replicas(d) >= 0 && TapeRespects(tie, w.tape)
    ensures Safe(tie, d, Reconcile(d, w).0, c)
  {
    AwaitKeepsSafe(tie, d, w, c);
    AwaitTape(w);
    var (w1, err, got) := Get(w);
    if err == Ok && !got.value.deleting {
      ReplicateKeepsSafe(tie, d, w1, got.value, c);
    }
  }

  ghost predicate RunRespects(tie: (string, string) -> bool, moves: seq<Move>) {
    forall i :: 0 <= i < |moves| && moves[i].Pass? ==> TapeRespects(tie, moves[i].tape)
  }

  /** Over every run of passes, failures, crashes, user deletions and finalizers that come and go: a
      child that fewer than R children may be listed before is never deleted by the controller. With
      AnyOrder nothing is assumed of ties; with a fixed order of names, only ties broken that way count. */
  lemma {:induction false} OldestAreSafe(
    tie: (string, string) -> bool, d: Deployment, w: World, moves: seq<Move>, c: Ref)
    requires Safe(tie, d, w, c) && Replicas(d) >= 0 && RunRespects(tie, moves)
    ensures Safe(tie, d, Run(d, w, moves), c)
    decreases |moves|
  {
    if moves != [] {
      var v := Step(d, w, moves[0]);
      match moves[0] {
        case Pass(tape) =>
          var x := w.(tape := tape);
          InheritsKeepsSafe(tie, d, w, x, c);
          PassKeepsSafe(tie, d, x, c);
          InheritsKeepsSafe(tie, d, Reconcile(d, x).0, v, c);
        case Outside(event) =>
          EventInherits(w, event);
          InheritsKeepsSafe(tie, d, w, v, c);
      }
      OldestAreSafe(tie, d, v, moves[1..], c);
    }
  }
}
