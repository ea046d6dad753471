/** One reconcile pass of the DockerDeployment controller as a function of the world it runs in
    (internal/controller/dockerdeployment_controller.go).

    As for the other controllers, what happens around each call is read from a tape: the events that
    land just before it and how it ends. When the tape runs out every further call is refused, which
    is a crash of the controller at that point. */
module DeploymentModel {
  import opened Go
  import opened DockerEngine
  import opened ContainerSpecs

  /** A DockerContainer in the namespace of the deployment. Creation stamps carry whole seconds.
      controlled: its controller reference names this deployment. */
  datatype Child = Child(
    uid: nat,
    created: nat,
    controlled: bool,
    labels: map<string, string>,
    spec: Spec,
    finalizer: bool,
    deleting: bool,
    running: bool)

  /** The part of a DockerDeployment that does not change during a run. */
  datatype Deployment = Deployment(
    name: string,
    replicas: Option<int32>,
    templateLabels: map<string, string>,
    templateSpec: Spec)

  datatype Stored = Stored(deleting: bool, availableReplicas: int32)

  datatype Event =
    | Tick(seconds: nat)
    | UserDelete(name: string)
    | AddFinalizer(name: string)
    | Finalized(name: string)  // the container controller lets go of a child that is being deleted
    | StateChange(name: string, running: bool)
    | ForeignCreate(name: string, child: Child)
    | DeleteDeployment

  /** listing: the order in which a list call returns the objects; suffix: what a random name ends in. */
  datatype Choice = Choice(before: seq<Event>, outcome: Outcome, listing: seq<string>, suffix: string)

  /** Counters that only the proofs look at: children created, and the UIDs that a Delete call reached. */
  datatype Log = Log(creates: nat, condemned: set<nat>)

  datatype World = World(
    deployment: Option<Stored>,
    objects: map<string, Child>,
    nextUid: nat,
    clock: nat,
    tape: seq<Choice>,
    log: Log)

  datatype Item = Item(name: string, child: Child)

  datatype Result = Finished | Again | Error | Panic

  const CRASH := Choice([], Refused, [], "")

  function Replicas(d: Deployment): int32 {
    if d.replicas.Some? then d.replicas.value else 1
  }

  // ---- The environment between calls ----

  function Discard(w: World, name: string): World {
    w.(objects := w.objects - {name})
  }

  function Put(w: World, name: string, c: Child): World {
    w.(objects := w.objects[name := c])
  }

  /** A deletion only leaves a mark while a finalizer holds the object. */
  function Mark(w: World, name: string): World
    requires name in w.objects
  {
    var c := w.objects[name];
    if c.deleting then w
    else if c.finalizer then Put(w, name, c.(deleting := true))
    else Discard(w, name)
  }

  function Apply(w: World, e: Event): World {
    match e
    case Tick(seconds) => w.(clock := w.clock + seconds)
    case UserDelete(name) => if name in w.objects then Mark(w, name) else w
    case AddFinalizer(name) =>
      if name in w.objects && !w.objects[name].deleting then Put(w, name, w.objects[name].(finalizer := true)) else w
    case Finalized(name) => if name in w.objects && w.objects[name].deleting then Discard(w, name) else w
    case StateChange(name, running) =>
      if name in w.objects then Put(w, name, w.objects[name].(running := running)) else w
    case ForeignCreate(name, child) =>
      if name in w.objects then w
      else
        var c := child.(uid := w.nextUid, created := w.clock, controlled := false);
        Put(w, name, c).(nextUid := w.nextUid + 1)
    case DeleteDeployment =>
      if w.deployment.None? then w else w.(deployment := Some(w.deployment.value.(deleting := true)))
  }

  function ApplyAll(w: World, events: seq<Event>): World
    decreases |events|
  {
    if events == [] then w else ApplyAll(Apply(w, events[0]), events[1..])
  }

  function Await(w: World): (World, Choice) {
    if w.tape == [] then (w, CRASH)
    else (ApplyAll(w.(tape := w.tape[1..]), w.tape[0].before), w.tape[0])
  }

  // ---- Listing ----

  /** A list call returns every object once, in an order nobody promises. */
  predicate IsListing(listing: seq<string>, objects: map<string, Child>) {
    && (forall i, j :: 0 <= i < j < |listing| ==> listing[i] != listing[j])
    && (forall n :: n in listing ==> n in objects)
    && (forall n :: n in objects ==> n in listing)
  }

  function OwnedItems(listing: seq<string>, objects: map<string, Child>): seq<Item>
    requires forall n :: n in listing ==> n in objects
  {
    if listing == [] then []
    else
      var c := objects[listing[0]];
      (if c.controlled then [Item(listing[0], c)] else []) + OwnedItems(listing[1..], objects)
  }

  function InsertByAge(x: Item, s: seq<Item>): seq<Item> {
    if s == [] || x.child.created <= s[0].child.created then [x] + s
    else [s[0]] + InsertByAge(x, s[1..])
  }

  /** sort.Slice makes no promise about children of the same second. Neither does the listing it is
      given, so a stable sort of an arbitrary listing stands for every order it can produce. */
  function SortByAge(s: seq<Item>): seq<Item> {
    if s == [] then [] else InsertByAge(s[0], SortByAge(s[1..]))
  }

  /** A choice whose listing is no listing of the objects is read as a failed call. */
  function List(w: World): (r: (World, Err, seq<string>))
    ensures r.1 == Ok ==> IsListing(r.2, r.0.objects)
  {
    var (w1, call) := Await(w);
    if call.outcome != Done || !IsListing(call.listing, w1.objects) then (w1, Failure, []) else (w1, Ok, call.listing)
  }

  function ListOwned(w: World): (World, Err, seq<Item>) {
    var (w1, err, listing) := List(w);
    if err != Ok then (w1, err, []) else (w1, Ok, SortByAge(OwnedItems(listing, w1.objects)))
  }

  // ---- Scaling ----

  function ChildName(d: Deployment, suffix: string): string {
    d.name + "-" + suffix
  }

  function ChildSpec(d: Deployment, suffix: string): Spec {
    var spec := d.templateSpec;
    spec.(containerName := if spec.containerName == "" then ChildName(d, suffix) else spec.containerName + "-" + suffix,
          managementMode := if spec.managementMode == "" then "Enforce" else spec.managementMode)
  }

  function NewChild(d: Deployment, w: World, suffix: string): Child {
    Child(w.nextUid, w.clock, true, d.templateLabels, ChildSpec(d, suffix), false, false, false)
  }

  function CreateChild(d: Deployment, w: World): (World, Err) {
    var (w1, call) := Await(w);
    var name := ChildName(d, call.suffix);
    if call.outcome == Refused || name in w1.objects then (w1, Failure)
    else
      (Put(w1, name, NewChild(d, w1, call.suffix))
         .(nextUid := w1.nextUid + 1, log := w1.log.(creates := w1.log.creates + 1)),
       Seen(call.outcome, Ok))
  }

  /** Deletion is by name: it hits whatever carries the name by then. */
  function DeleteChild(w: World, name: string): (World, Err) {
    var (w1, call) := Await(w);
    if call.outcome == Refused || name !in w1.objects then (w1, Failure)
    else
      (Mark(w1, name).(log := w1.log.(condemned := w1.log.condemned + {w1.objects[name].uid})), Seen(call.outcome, Ok))
  }

  function ScaleUp(d: Deployment, w: World, count: nat): (World, Err)
    decreases count
  {
    if count == 0 then (w, Ok)
    else
      var (w1, err) := CreateChild(d, w);
      if err != Ok then (w1, err) else ScaleUp(d, w1, count - 1)
  }

  /** None means that every child asked for was deleted; counting past the front of the list panics. */
  function ScaleDown(w: World, owned: seq<Item>, count: nat): (World, Option<Result>)
    decreases count
  {
    if count == 0 then (w, None)
    else if owned == [] then (w, Some(Panic))
    else
      var (w1, err) := DeleteChild(w, owned[|owned| - 1].name);
      if err != Ok then (w1, Some(Error)) else ScaleDown(w1, owned[..|owned| - 1], count - 1)
  }

  function Scale(d: Deployment, w: World, owned: seq<Item>): (World, Option<Result>) {
    var diff: int := Int32(Replicas(d) - Int32(|owned|));
    if diff > 0 then
      var (w1, err) := ScaleUp(d, w, diff);
      (w1, if err != Ok then Some(Error) else None)
    else if diff < 0 then ScaleDown(w, owned, Max(Int32(-diff), 0))
    else (w, None)
  }

  // ---- Status ----

  function RunningCount(owned: seq<Item>): nat {
    if owned == [] then 0
    else RunningCount(owned[..|owned| - 1]) + if owned[|owned| - 1].child.running then 1 else 0
  }

  function Report(w: World, copy: Stored, available: int32): (World, Result) {
    if copy.availableReplicas == available then (w, Again)
    else
      var (w1, call) := Await(w);
      if call.outcome == Refused || w1.deployment.None? then (w1, Error)
      else
        (w1.(deployment := Some(w1.deployment.value.(availableReplicas := available))),
         if call.outcome == Done then Again else Error)
  }

  function Count(w: World, copy: Stored): (World, Result) {
    var (w1, err, owned) := ListOwned(w);
    if err != Ok then (w1, Error) else Report(w1, copy, Int32(RunningCount(owned)))
  }

  function Get(w: World): (World, Err, Option<Stored>) {
    var (w1, call) := Await(w);
    if call.outcome != Done then (w1, Failure, None)
    else if w1.deployment.None? then (w1, NotFound, None)
    else (w1, Ok, w1.deployment)
  }

  function Replicate(d: Deployment, w: World, copy: Stored): (World, Result) {
    var (w1, err, owned) := ListOwned(w);
    if err != Ok then (w1, Error)
    else
      var (w2, stop) := Scale(d, w1, owned);
      if stop.Some? then (w2, stop.value) else Count(w2, copy)
  }

  function Reconcile(d: Deployment, w: World): (World, Result) {
    var (w1, err, got) := Get(w);
    if err == NotFound then (w1, Finished)
    else if err != Ok then (w1, Error)
    else if got.value.deleting then (w1, Finished)
    else Replicate(d, w1, got.value)
  }

  // ---- Runs ----

  datatype Move = Pass(tape: seq<Choice>) | Outside(event: Event)

  function Step(d: Deployment, w: World, m: Move): World {
    match m
    case Pass(tape) => Reconcile(d, w.(tape := tape)).0.(tape := [])
    case Outside(event) => Apply(w, event)
  }

  function Run(d: Deployment, w: World, moves: seq<Move>): World
    decreases |moves|
  {
    if moves == [] then w else Run(d, Step(d, w, moves[0]), moves[1..])
  }
}
