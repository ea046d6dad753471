/** From every live state some run of the DockerDeployment controller settles. */
module DeploymentConverges {
  import opened Go
  import opened DockerEngine
  import opened DeploymentModel
  import opened DeploymentProofs
  import opened DeploymentLimits
  import opened DeploymentProgress

  // ---- Random suffixes ----

  /** The characters of letterRunes. */
  predicate LetterRune(c: char) {
    'a' <= c <= 'z' || '0' <= c <= '9'
  }

  /** What utilRandString(5) can return. */
  predicate RandomString(s: string) {
    |s| == 5 && forall i :: 0 <= i < |s| ==> LetterRune(s[i])
  }

  /** There are 36^5 of them. */
  const SUFFIXES := 60_466_176

  function Rune(n: nat): (c: char)
    requires n < 36
    ensures LetterRune(c)
  {
    if n < 26 then 'a' + n as char else '0' + (n - 26) as char
  }

  function Numeral(n: nat, digits: nat): (s: string)
    ensures |s| == digits && forall i :: 0 <= i < digits ==> LetterRune(s[i])
  {
    if digits == 0 then "" else Numeral(n / 36, digits - 1) + [Rune(n % 36)]
  }

  function Power36(digits: nat): nat {
    if digits == 0 then 1 else 36 * Power36(digits - 1)
  }

  lemma {:induction false} NumeralsDiffer(m: nat, n: nat, digits: nat)
    requires m < Power36(digits) && n < Power36(digits) && Numeral(m, digits) == Numeral(n, digits)
    ensures m == n
    decreases digits
  {
    if digits > 0 {
      var a, b := Numeral(m, digits), Numeral(n, digits);
      assert a[digits - 1] == Rune(m % 36) && b[digits - 1] == Rune(n % 36);
      assert a[..digits - 1] == Numeral(m / 36, digits - 1) && b[..digits - 1] == Numeral(n / 36, digits - 1);
      NumeralsDiffer(m / 36, n / 36, digits - 1);
    }
  }

  /** Of n suffixes one is free as long as fewer than n names are taken. */
  lemma {:induction false} FreeSuffix(d: Deployment, taken: set<string>, n: nat) returns (suffix: string)
    requires |taken| < n <= SUFFIXES
    ensures RandomString(suffix) && ChildName(d, suffix) !in taken
    ensures exists i: nat :: i < n && suffix == Numeral(i, 5)
    decreases n
  {
    suffix := Numeral(n - 1, 5);
    var name := ChildName(d, suffix);
    if name in taken {
      suffix := FreeSuffix(d, taken - {name}, n - 1);
      var i: nat :| i < n - 1 && suffix == Numeral(i, 5);
      if ChildName(d, suffix) == name {
        SameName(d, suffix, Numeral(n - 1, 5));
        assert Power36(5) == SUFFIXES;
        NumeralsDiffer(i, n - 1, 5);
      }
    }
  }

  // ---- A tape that does not disturb ----

  function Creation(suffix: string): Choice {
    Choice([], Done, [], suffix)
  }

  function Listing(listing: seq<string>): Choice {
    Choice([], Done, listing, Numeral(0, 5))
  }

  ghost predicate RandomTape(tape: seq<Choice>) {
    forall i :: 0 <= i < |tape| ==> RandomString(tape[i].suffix)
  }

  /** Suffixes for as many new children as there are names left. */
  lemma {:induction false} FreshCreations(d: Deployment, taken: set<string>, count: nat) returns (calls: seq<Choice>)
    requires |taken| + count <= SUFFIXES
    ensures |calls| == count && AllDone(calls) && RandomTape(calls)
    ensures forall i :: 0 <= i < count ==> ChildName(d, calls[i].suffix) !in taken
    ensures forall i, j :: 0 <= i < j < count ==> calls[i].suffix != calls[j].suffix
    decreases count
  {
    if count == 0 {
      calls := [];
    } else {
      var suffix := FreeSuffix(d, taken, SUFFIXES);
      var rest := FreshCreations(d, taken + {ChildName(d, suffix)}, count - 1);
      calls := [Creation(suffix)] + rest;
    }
  }

  lemma QuietFirst(w: World)
    requires w.tape != [] && w.tape[0].before == []
    ensures Await(w) == (w.(tape := w.tape[1..]), w.tape[0])
  {
    var w1 := w.(tape := w.tape[1..]);
    assert ApplyAll(w1, []) == w1;
  }

  /** Further calls on the tape do not change what a scaling does. */
  lemma {:induction false} ScaleUpThenMore(d: Deployment, w: World, count: nat, more: seq<Choice>)
    requires count <= |w.tape| && AllDone(w.tape)
    ensures ScaleUp(d, w.(tape := w.tape + more), count).0.objects == ScaleUp(d, w, count).0.objects
    decreases count
  {
    if count > 0 {
      var x := w.(tape := w.tape + more);
      assert x.tape[0] == w.tape[0] && x.tape[1..] == w.tape[1..] + more;
      QuietFirst(w);
      QuietFirst(x);
      var (v, err) := CreateChild(d, w);
      assert CreateChild(d, x) == (v.(tape := v.tape + more), err);
      if err == Ok {
        ScaleUpThenMore(d, v, count - 1, more);
      }
    }
  }

  lemma {:induction false} ScaleDownThenMore(w: World, owned: seq<Item>, count: nat, more: seq<Choice>)
    requires count <= |w.tape| && AllDone(w.tape)
    ensures ScaleDown(w.(tape := w.tape + more), owned, count).0.objects == ScaleDown(w, owned, count).0.objects
    decreases count
  {
    if count > 0 && owned != [] {
      var x := w.(tape := w.tape + more);
      var name := owned[|owned| - 1].name;
      assert x.tape[0] == w.tape[0] && x.tape[1..] == w.tape[1..] + more;
      QuietFirst(w);
      QuietFirst(x);
      var (v, err) := DeleteChild(w, name);
      assert DeleteChild(x, name) == (v.(tape := v.tape + more), err);
      if err == Ok {
        ScaleDownThenMore(v, owned[..|owned| - 1], count - 1, more);
      }
    }
  }

  lemma ScaleThenMore(d: Deployment, w: World, owned: seq<Item>, more: seq<Choice>)
    requires |owned| < TWO_31 && Replicas(d) >= 0 && Gap(d, |owned|) <= |w.tape| && AllDone(w.tape)
    ensures Scale(d, w.(tape := w.tape + more), owned).0.objects == Scale(d, w, owned).0.objects
  {
    var diff: int := Replicas(d) - |owned|;
    assert Int32(Replicas(d) - Int32(|owned|)) == diff;
    if diff > 0 {
      ScaleUpThenMore(d, w, diff, more);
    } else if diff < 0 {
      ScaleDownThenMore(w, owned, -diff, more);
    }
  }

  function QuietTape(listing: seq<string>, calls: seq<Choice>, relisting: seq<string>): seq<Choice> {
    [Listing([]), Listing(listing)] + calls + [Listing(relisting), Listing([])]
  }

  lemma QuietTapeParts(listing: seq<string>, calls: seq<Choice>, relisting: seq<string>)
    requires AllDone(calls)
    requires RandomTape(calls)
    ensures var tape := QuietTape(listing, calls, relisting);
      && AllDone(tape) && RandomTape(tape) && |tape| == |calls| + 4 && tape[1].listing == listing
      && tape[2..] == calls + [Listing(relisting), Listing([])]
      && tape[2..2 + |calls|] == calls && tape[2 + |calls|].listing == relisting
  {
  }

  lemma QuietTapeFits(d: Deployment, w: World, listing: seq<string>, calls: seq<Choice>, relisting: seq<string>)
    requires Replicas(d) >= 0 && IsListing(listing, w.objects)
    requires AllDone(calls) && RandomTape(calls)
    requires |Owned(w.objects)| < Replicas(d) ==> FreshSuffixes(d, w.objects, calls)
    requires var owned := SortByAge(OwnedItems(listing, w.objects));
      && |owned| == |Owned(w.objects)| < TWO_31 && |calls| == Gap(d, |owned|)
      && IsListing(relisting, Scale(d, w.(tape := calls), owned).0.objects)
    ensures Undisturbed(d, w.(tape := QuietTape(listing, calls, relisting)))
    ensures RandomTape(QuietTape(listing, calls, relisting))
  {
    var owned := SortByAge(OwnedItems(listing, w.objects));
    var tape := QuietTape(listing, calls, relisting);
    QuietTapeParts(listing, calls, relisting);
    var more := [Listing(relisting), Listing([])];
    ScaleThenMore(d, w.(tape := calls), owned, more);
    assert w.(tape := tape).(tape := tape[2..]) == w.(tape := calls).(tape := calls + more);
  }

  /** Undisturbed passes exist as long as there are names left. */
  lemma UndisturbedExists(d: Deployment, w: World) returns (tape: seq<Choice>)
    requires WellFormed(w) && Replicas(d) >= 0 && |w.objects| + Replicas(d) <= SUFFIXES
    ensures Undisturbed(d, w.(tape := tape)) && RandomTape(tape)
  {
    var listing := Enumerate(w.objects.Keys);
    var owned := SortByAge(OwnedItems(listing, w.objects));
    ListedByCall(w, listing);
    var gap := Gap(d, |owned|);
    var calls := seq(gap, _ => Listing([]));
    if |owned| < Replicas(d) {
      calls := FreshCreations(d, w.objects.Keys, gap);
    }
    var relisting := Enumerate(Scale(d, w.(tape := calls), owned).0.objects.Keys);
    QuietTapeFits(d, w, listing, calls, relisting);
    tape := QuietTape(listing, calls, relisting);
  }

  // ---- How many names a pass takes ----

  lemma QuietAwait(w: World)
    requires AllDone(w.tape)
    ensures var v := Await(w).0; v.objects == w.objects && AllDone(v.tape)
  {
    if w.tape != [] {
      QuietFirst(w);
    }
  }

  lemma {:induction false} ScaleUpGrows(d: Deployment, w: World, count: nat)
    requires AllDone(w.tape)
    ensures var v := ScaleUp(d, w, count).0; |v.objects| <= |w.objects| + count && AllDone(v.tape)
    decreases count
  {
    if count > 0 {
      QuietAwait(w);
      var (w1, call) := Await(w);
      var (v, err) := CreateChild(d, w);
      assert v.objects == w1.objects || v.objects.Keys == w1.objects.Keys + {ChildName(d, call.suffix)};
      ScaleUpGrows(d, v, count - 1);
    }
  }

  lemma MarkShrinks(w: World, name: string)
    requires name in w.objects
    ensures |Mark(w, name).objects| <= |w.objects|
  {
    assert Mark(w, name).objects.Keys <= w.objects.Keys;
    Smaller(Mark(w, name).objects.Keys, w.objects.Keys);
  }

  lemma {:induction false} ScaleDownShrinks(w: World, owned: seq<Item>, count: nat)
    requires AllDone(w.tape)
    ensures var v := ScaleDown(w, owned, count).0; |v.objects| <= |w.objects| && AllDone(v.tape)
    decreases count
  {
    if count > 0 && owned != [] {
      QuietAwait(w);
      var name := owned[|owned| - 1].name;
      if name in Await(w).0.objects {
        MarkShrinks(Await(w).0, name);
      }
      ScaleDownShrinks(DeleteChild(w, name).0, owned[..|owned| - 1], count - 1);
    }
  }

  lemma ScaleGrows(d: Deployment, w: World, owned: seq<Item>)
    requires AllDone(w.tape) && Replicas(d) >= 0 && |owned| < TWO_31
    ensures var v := Scale(d, w, owned).0; |v.objects| <= |w.objects| + Replicas(d) && AllDone(v.tape)
  {
    var diff: int := Replicas(d) - |owned|;
    assert Int32(Replicas(d) - Int32(|owned|)) == diff;
    if diff > 0 {
      ScaleUpGrows(d, w, diff);
    } else if diff < 0 {
      ScaleDownShrinks(w, owned, -diff);
    }
  }

  lemma CountGrowsNothing(w: World, copy: Stored)
    requires AllDone(w.tape)
    ensures Count(w, copy).0.objects == w.objects
  {
    QuietAwait(w);
    QuietAwait(Await(w).0);
  }

  lemma ReplicateGrows(d: Deployment, w: World, copy: Stored)
    requires WellFormed(w) && AllDone(w.tape) && Replicas(d) >= 0
    ensures |Replicate(d, w, copy).0.objects| <= |w.objects| + Replicas(d)
  {
    QuietAwait(w);
    var (w1, err, owned) := ListOwned(w);
    if err == Ok {
      ListedByCall(w1, List(w).2);
      ScaleGrows(d, w1, owned);
      CountGrowsNothing(Scale(d, w1, owned).0, copy);
    }
  }

  /** An undisturbed pass adds at most R objects. */
  lemma PassGrows(d: Deployment, w: World)
    requires WellFormed(w) && AllDone(w.tape) && Replicas(d) >= 0
    ensures |Reconcile(d, w).0.objects| <= |w.objects| + Replicas(d)
  {
    QuietAwait(w);
    var (w1, err, got) := Get(w);
    if err == Ok {
      ReplicateGrows(d, w1, got.value);
    }
  }

  // ---- Deletions come to an end ----

  function Farewells(names: seq<string>): (events: seq<Event>)
    ensures |events| == |names| && AllGentle(events)
  {
    seq(|names|, i requires 0 <= i < |names| => Finalized(names[i]))
  }

  /** Not on its way out. */
  ghost predicate Calm(w: World, name: string) {
    name in Owned(w.objects) ==> name in Staying(w.objects)
  }

  lemma {:induction false} CalmStays(w: World, name: string, names: seq<string>)
    requires Calm(w, name) || name in names
    ensures Calm(ApplyAll(w, Farewells(names)), name)
    decreases |names|
  {
    if names != [] {
      assert Farewells(names)[1..] == Farewells(names[1..]);
      assert names == [names[0]] + names[1..];
      CalmStays(Apply(w, Finalized(names[0])), name, names[1..]);
    }
  }

  lemma {:induction false} FarewellsShrink(w: World, names: seq<string>)
    ensures |ApplyAll(w, Farewells(names)).objects| <= |w.objects|
    decreases |names|
  {
    if names != [] {
      assert Farewells(names)[1..] == Farewells(names[1..]);
      var v := Apply(w, Finalized(names[0]));
      assert v.objects.Keys <= w.objects.Keys;
      Smaller(v.objects.Keys, w.objects.Keys);
      FarewellsShrink(v, names[1..]);
    }
  }

  /** The container controller can always let go of every child that is being deleted. */
  lemma DeletionsEnd(w: World) returns (events: seq<Event>)
    requires WellFormed(w)
    ensures AllGentle(events)
    ensures var v := ApplyAll(w, events); Staying(v.objects) == Owned(v.objects) && |v.objects| <= |w.objects|
  {
    var names := Enumerate(Owned(w.objects));
    events := Farewells(names);
    FarewellsShrink(w, names);
    GentleEvents(w, events);
    forall n | n in Owned(w.objects) ensures Calm(ApplyAll(w, events), n) {
      CalmStays(w, n, names);
    }
  }

  // ---- Some run settles ----

  /** Two undisturbed passes and the events between them. */
  function Course(first: seq<Choice>, between: seq<Event>, second: seq<Choice>): seq<Move> {
    [Pass(first)] + seq(|between|, i requires 0 <= i < |between| => Outside(between[i])) + [Pass(second)]
  }

  lemma {:induction false} CourseRuns(d: Deployment, w: World, between: seq<Event>, second: seq<Choice>)
    ensures Run(d, w, Course([], between, second)[1..]) == Step(d, ApplyAll(w, between), Pass(second))
    decreases |between|
  {
    var moves := Course([], between, second)[1..];
    if between == [] {
      assert moves == [Pass(second)];
      OnePass(d, w, second);
    } else {
      assert moves[0] == Outside(between[0]);
      assert moves[1..] == Course([], between[1..], second)[1..];
      CourseRuns(d, Apply(w, between[0]), between[1..], second);
    }
  }

  lemma WholeCourse(d: Deployment, w: World, first: seq<Choice>, between: seq<Event>, second: seq<Choice>)
    ensures Run(d, w, Course(first, between, second)) ==
            Step(d, ApplyAll(Step(d, w, Pass(first)), between), Pass(second))
  {
    var moves := Course(first, between, second);
    assert moves[0] == Pass(first) && moves[1..] == Course([], between, second)[1..];
    CourseRuns(d, Step(d, w, Pass(first)), between, second);
  }

  ghost predicate RandomMoves(moves: seq<Move>) {
    forall i :: 0 <= i < |moves| && moves[i].Pass? ==> RandomTape(moves[i].tape)
  }

  lemma CourseSettles(d: Deployment, w: World, first: seq<Choice>, between: seq<Event>) returns (moves: seq<Move>)
    requires WellFormed(w) && Live(w) && Replicas(d) >= 0 && Undisturbed(d, w.(tape := first)) && AllGentle(between)
    requires RandomTape(first)
    requires var v := ApplyAll(Step(d, w, Pass(first)), between);
      WellFormed(v) && Staying(v.objects) == Owned(v.objects) && |v.objects| + Replicas(d) <= SUFFIXES
    ensures RandomMoves(moves) && Settled(d, Run(d, w, moves))
  {
    var second := UndisturbedExists(d, ApplyAll(Step(d, w, Pass(first)), between));
    Converges(d, w, first, between, second);
    WholeCourse(d, w, first, between, second);
    moves := Course(first, between, second);
  }

  /** From every live state there is a run that leaves exactly R children, none of them on its way out, as
      long as there are enough of the random names. */
  lemma CanSettle(d: Deployment, w: World)
    requires WellFormed(w) && Live(w) && Replicas(d) >= 0 && |w.objects| + 2 * Replicas(d) <= SUFFIXES
    ensures exists moves :: RandomMoves(moves) && Settled(d, Run(d, w, moves))
  {
    var first := UndisturbedExists(d, w);
    var x := w.(tape := first);
    PassSucceeds(d, x);
    PassReaches(d, x);
    PassGrows(d, x);
    var w1 := Step(d, w, Pass(first));
    var between := DeletionsEnd(w1);
    GentleEvents(w1, between);
    var moves := CourseSettles(d, w, first, between);
  }
}
