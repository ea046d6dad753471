/** What the tunnel server serves, over every interleaving of pushes, file readers, sessions and
    connections. */
module TunnelProofs {
  import opened Go
  import opened Text
  import opened Arithmetic
  import opened RoundRobin
  import opened TunnelModel

  // ---- A fresh push outranks the file ----

  /** A reload request that names targets; one that does not only reads the file. */
  predicate IsPush(e: Event) {
    e.ReloadRequest? && e.query != ""
  }

  /** The text and the time of the last push among the events, given the last one before them. */
  function LastPush(before: Option<(string, int)>, now: int, events: seq<Event>): Option<(string, int)>
    decreases |events|
  {
    if events == [] then before
    else if IsPush(events[0]) then LastPush(Some((events[0].query, now)), now, events[1..])
    else if events[0].Tick? then LastPush(before, now + events[0].ns, events[1..])
    else LastPush(before, now, events[1..])
  }

  /** What the server remembers of the last push, and what it serves while that push is fresh. */
  ghost predicate Remembers(w: World, push: Option<(string, int)>) {
    match push
    case None => w.server.lastPush.None?
    case Some((query, at)) =>
      && w.server.lastPush == Some(at)
      && w.server.pushTargets == Fields(query)
      && (w.now - at < PUSH_WINDOW ==> w.server.targets == Fields(query))
  }

  function PushNow(before: Option<(string, int)>, now: int, e: Event): Option<(string, int)> {
    if IsPush(e) then Some((e.query, now)) else before
  }

  lemma RemembersStep(w: World, e: Event, before: Option<(string, int)>)
    requires Remembers(w, before)
    ensures Remembers(Apply(w, e), PushNow(before, w.now, e))
  {
  }

  /** For less than two minutes after a push, through any reads, late commits, writes to the file,
      sessions and connections, the server serves exactly what was pushed last. */
  lemma {:induction false} PushOutranksFile(w: World, events: seq<Event>, before: Option<(string, int)>)
    requires Remembers(w, before)
    ensures Remembers(Run(w, events), LastPush(before, w.now, events))
    decreases |events|
  {
    if events != [] {
      RemembersStep(w, events[0], before);
      PushOutranksFile(Apply(w, events[0]), events[1..], PushNow(before, w.now, events[0]));
    }
  }

  /** So a server that starts without a push serves every push while it is fresh. */
  lemma PushIsServed(w: World, events: seq<Event>)
    requires w.server.lastPush.None?
    ensures ServesPush(Run(w, events).server, Run(w, events).now)
  {
    PushOutranksFile(w, events, None);
  }

  // ---- Later the file wins ----

  /** Neither a push, nor anything that touches this reader. */
  ghost predicate LeavesAlone(e: Event, reader: nat) {
    !IsPush(e) && e != Read(reader) && e != CommitRead(reader)
  }

  lemma {:induction false} ReadWaits(w: World, events: seq<Event>, reader: nat)
    requires reader in w.pending && forall i :: 0 <= i < |events| ==> LeavesAlone(events[i], reader)
    ensures var v := Run(w, events);
      && reader in v.pending && v.pending[reader] == w.pending[reader]
      && v.server.lastPush == w.server.lastPush && v.now >= w.now
    decreases |events|
  {
    if events != [] {
      assert LeavesAlone(events[0], reader);
      ReadWaits(Apply(w, events[0]), events[1..], reader);
    }
  }

  lemma {:induction false} RunAppend(w: World, a: seq<Event>, b: seq<Event>)
    ensures Run(w, a + b) == Run(Run(w, a), b)
    decreases |a|
  {
    if a == [] {
      assert a + b == b;
    } else {
      assert (a + b)[1..] == a[1..] + b;
      RunAppend(Apply(w, a[0]), a[1..], b);
    }
  }

  lemma RunOne(w: World, e: Event)
    ensures Run(w, [e]) == Apply(w, e)
  {
    assert [e][1..] == [];
    assert Run(Apply(w, e), []) == Apply(w, e);
  }

  lemma ReadParses(w: World, reader: nat)
    requires w.file.Some?
    ensures var v := Apply(w, Read(reader)); reader in v.pending && v.pending[reader] == Fields(w.file.value)
  {
    FieldsTrimSpace(w.file.value);
  }

  lemma RunAround(w: World, first: Event, middle: seq<Event>, last: Event)
    ensures Run(w, [first] + middle) == Run(Apply(w, first), middle)
    ensures Run(w, [first] + middle + [last]) == Apply(Run(Apply(w, first), middle), last)
  {
    RunAppend(w, [first], middle);
    RunOne(w, first);
    RunAppend(w, [first] + middle, [last]);
    RunOne(Run(w, [first] + middle), last);
  }

  lemma CommitOutsideWindow(v: World, reader: nat)
    requires reader in v.pending && !InWindow(v.server, v.now)
    ensures Apply(v, CommitRead(reader)).server.targets == v.pending[reader]
  {
  }

  /** A read that is committed when the last push, if any, is two minutes old makes the server serve what
      the file said when it was read, whatever else happened in between, pushes apart. */
  lemma FileWinsLater(w: World, reader: nat, middle: seq<Event>)
    requires w.file.Some? && forall i :: 0 <= i < |middle| ==> LeavesAlone(middle[i], reader)
    requires var v := Run(w, [Read(reader)] + middle); !InWindow(v.server, v.now)
    ensures Run(w, [Read(reader)] + middle + [CommitRead(reader)]).server.targets == Fields(w.file.value)
  {
    RunAround(w, Read(reader), middle, CommitRead(reader));
    ReadParses(w, reader);
    ReadWaits(Apply(w, Read(reader)), middle, reader);
    CommitOutsideWindow(Run(Apply(w, Read(reader)), middle), reader);
  }

  /** Readers do not queue: a slow one can bring back what a newer one had replaced. */
  lemma LateCommitGoesBack(w: World, older: string, newer: string)
    requires w.file == Some(older) && w.server.lastPush.None?
    ensures Run(w, [Read(1), WriteFile(Some(newer)), Read(2), CommitRead(2), CommitRead(1)]).server.targets
            == Fields(older)
    ensures Run(w, [Read(1), WriteFile(Some(newer)), Read(2), CommitRead(2), CommitRead(1)]).file == Some(newer)
  {
    var middle := [WriteFile(Some(newer)), Read(2), CommitRead(2)];
    var w1 := Apply(w, Read(1));
    RunAround(w, Read(1), middle, CommitRead(1));
    var w2 := Apply(w1, middle[0]);
    var w3 := Apply(w2, middle[1]);
    var w4 := Apply(w3, middle[2]);
    assert middle[1..] == [Read(2), CommitRead(2)];
    assert [Read(2), CommitRead(2)][1..] == [CommitRead(2)];
    RunOne(w3, CommitRead(2));
    assert Run(w2, middle[1..]) == Run(w3, [CommitRead(2)]);
    assert Run(w1, middle) == w4;
    FileWinsLater(w, 1, middle);
    assert [Read(1)] + middle + [CommitRead(1)] ==
           [Read(1), WriteFile(Some(newer)), Read(2), CommitRead(2), CommitRead(1)];
  }

  /** Every content the file ever had, which of them is served, and which of them each reader holds. */
  datatype History = History(contents: seq<Option<string>>, served: Option<nat>, pending: map<nat, nat>)

  ghost predicate Content(h: History, i: nat, targets: seq<string>) {
    i < |h.contents| && h.contents[i].Some? && targets == Fields(h.contents[i].value)
  }

  /** The history of a server that nobody pushes to. */
  ghost predicate Tells(h: History, w: World) {
    && h.contents != [] && h.contents[|h.contents| - 1] == w.file && w.server.lastPush.None?
    && (h.served.Some? ==> Content(h, h.served.value, w.server.targets))
    && (forall r :: r in h.pending <==> r in w.pending)
    && (forall r :: r in h.pending ==> Content(h, h.pending[r], w.pending[r]))
  }

  ghost function Record(h: History, w: World, e: Event): History
    requires Tells(h, w)
  {
    var now := |h.contents| - 1;
    match e
    case WriteFile(content) => h.(contents := h.contents + [content])
    case Read(reader) => if w.file.None? then h else h.(pending := h.pending[reader := now])
    case CommitRead(reader) =>
      if reader !in h.pending then h else h.(served := Some(h.pending[reader]), pending := h.pending - {reader})
    case ReloadRequest(_) => if w.file.None? then h else h.(served := Some(now))
    case _ => h
  }

  lemma FileParses(w: World)
    ensures w.file.Some? ==> Fields(TrimSpace(w.file.value)) == Fields(w.file.value)
  {
    if w.file.Some? {
      FieldsTrimSpace(w.file.value);
    }
  }

  lemma MoreContents(h: History, w: World, content: Option<string>)
    requires Tells(h, w)
    ensures Tells(h.(contents := h.contents + [content]), w.(file := content))
  {
  }

  lemma CommitTells(h: History, w: World, reader: nat)
    requires Tells(h, w)
    ensures Tells(Record(h, w, CommitRead(reader)), Apply(w, CommitRead(reader)))
  {
  }

  lemma ReadTells(h: History, w: World, reader: nat)
    requires Tells(h, w)
    ensures Tells(Record(h, w, Read(reader)), Apply(w, Read(reader)))
  {
    FileParses(w);
  }

  lemma PullTells(h: History, w: World)
    requires Tells(h, w)
    ensures Tells(Record(h, w, ReloadRequest("")), Apply(w, ReloadRequest("")))
  {
    FileParses(w);
  }

  lemma RecordTells(h: History, w: World, e: Event)
    requires Tells(h, w) && !IsPush(e)
    ensures Tells(Record(h, w, e), Apply(w, e))
  {
    match e
    case WriteFile(content) => MoreContents(h, w, content);
    case Read(reader) => ReadTells(h, w, reader);
    case CommitRead(reader) => CommitTells(h, w, reader);
    case ReloadRequest(_) => PullTells(h, w);
    case _ =>
  }

  /** A read begins only when no other one is under way. */
  ghost predicate Separate(h: History, w: World, events: seq<Event>)
    requires Tells(h, w)
    decreases |events|
  {
    events == [] ||
    (&& !IsPush(events[0])
     && (events[0].Read? || events[0].ReloadRequest? ==> h.pending == map[])
     && (RecordTells(h, w, events[0]);
         Separate(Record(h, w, events[0]), Apply(w, events[0]), events[1..])))
  }

  ghost predicate Forward(h: History) {
    && (forall r, q :: r in h.pending && q in h.pending ==> r == q)
    && (forall r :: r in h.pending && h.served.Some? ==> h.served.value <= h.pending[r])
  }

  ghost function Final(h: History, w: World, events: seq<Event>): (f: History)
    requires Tells(h, w) && Separate(h, w, events)
    ensures Tells(f, Run(w, events))
    decreases |events|
  {
    if events == [] then h
    else
      RecordTells(h, w, events[0]);
      Final(Record(h, w, events[0]), Apply(w, events[0]), events[1..])
  }

  lemma StepsForward(h: History, w: World, e: Event)
    requires Tells(h, w) && Forward(h) && !IsPush(e) && (e.Read? || e.ReloadRequest? ==> h.pending == map[])
    ensures var f := Record(h, w, e);
      Forward(f) && (h.served.Some? ==> f.served.Some? && h.served.value <= f.served.value)
  {
  }

  /** Readers that do not overlap never bring older content back: what is served only moves forward through
      the contents the file has had. */
  lemma {:induction false} SeparateReadsGoForward(h: History, w: World, events: seq<Event>)
    requires Tells(h, w) && Forward(h) && Separate(h, w, events)
    ensures var f := Final(h, w, events);
      && Tells(f, Run(w, events)) && Forward(f)
      && (h.served.Some? ==> f.served.Some? && h.served.value <= f.served.value)
    decreases |events|
  {
    if events != [] {
      RecordTells(h, w, events[0]);
      StepsForward(h, w, events[0]);
      SeparateReadsGoForward(Record(h, w, events[0]), Apply(w, events[0]), events[1..]);
    }
  }

  // ---- Sessions ----

  /** Whether the last thing said about a session is that it connected. */
  ghost predicate Open(events: seq<Event>, id: nat)
    decreases |events|
  {
    events != [] &&
    var last := events[|events| - 1];
    last == Connect(id) || (last != Disconnect(id) && Open(events[..|events| - 1], id))
  }

  /** A session that connects is a new one: it is not open at the time. */
  ghost predicate NewSessions(events: seq<Event>)
    decreases |events|
  {
    events == [] ||
    (NewSessions(events[..|events| - 1]) &&
     (events[|events| - 1].Connect? ==> !Open(events[..|events| - 1], events[|events| - 1].session)))
  }

  ghost predicate NoRepeats(s: seq<nat>) {
    forall i, j :: 0 <= i < j < |s| ==> s[i] != s[j]
  }

  lemma {:induction false} WithoutRemoves(s: seq<nat>, id: nat)
    requires NoRepeats(s)
    ensures NoRepeats(Without(s, id)) && forall x :: x in Without(s, id) <==> x in s && x != id
  {
    if s != [] {
      WithoutRemoves(s[1..], id);
      assert s == [s[0]] + s[1..];
      var rest := Without(s[1..], id);
      assert forall x :: x in s[1..] ==> x != s[0];
      if s[0] != id {
        assert Without(s, id) == [s[0]] + rest;
        forall j | 0 <= j < |rest| ensures rest[j] != s[0] {
          assert rest[j] in rest;
        }
      }
    }
  }

  lemma SessionStep(w: World, e: Event, open: set<nat>)
    requires NoRepeats(w.server.sessions) && forall x :: x in w.server.sessions <==> x in open
    requires e.Connect? ==> e.session !in open
    ensures var v := Apply(w, e).server.sessions;
      && NoRepeats(v)
      && forall x :: x in v <==> e == Connect(x) || (e != Disconnect(x) && x in open)
  {
    if e.Disconnect? {
      WithoutRemoves(w.server.sessions, e.session);
    }
  }

  /** The server's list holds exactly the open sessions, each of them once. */
  lemma {:induction false} SessionsAreOpen(w: World, events: seq<Event>)
    requires w.server.sessions == [] && NewSessions(events)
    ensures var v := Run(w, events).server.sessions;
      NoRepeats(v) && forall id :: id in v <==> Open(events, id)
    decreases |events|
  {
    if events != [] {
      var k := |events| - 1;
      SessionsAreOpen(w, events[..k]);
      RunAppend(w, events[..k], [events[k]]);
      assert events == events[..k] + [events[k]];
      var u := Run(w, events[..k]);
      RunOne(u, events[k]);
      SessionStep(u, events[k], set x | x in u.server.sessions);
    }
  }

  // ---- Connections ----

  /** Where the next connections go. */
  function Dispatched(s: Server, n: nat): seq<Option<(string, nat)>>
    decreases n
  {
    if n == 0 then [] else [Dispatch(s).1] + Dispatched(Dispatch(s).0, n - 1)
  }

  lemma CounterSteps(r: nat, i: nat)
    requires i > 0
    ensures Counter(Counter(r, 1), i - 1) == Counter(r, i)
  {
  }

  lemma {:induction false} DispatchedAt(s: Server, n: nat, i: nat)
    requires Serves(s) && i < n && s.rrIndex < TWO_64
    ensures |Dispatched(s, n)| == n
    ensures var (t, k) := Pick(Counter(s.rrIndex, i), |s.targets|, |s.sessions|);
      Dispatched(s, n)[i] == Some((s.targets[t], s.sessions[k]))
    decreases n
  {
    var next := Dispatch(s).0;
    if i > 0 {
      DispatchedAt(next, n - 1, i - 1);
      CounterSteps(s.rrIndex, i);
    } else if n > 1 {
      DispatchedAt(next, n - 1, 0);
    }
  }

  /** While the targets and the sessions stay as they are and the counter does not wrap, lcm(T, S)
      connections in a row use every target with every session that it meets exactly once. */
  lemma ConnectionsAreBalanced(s: Server, i: nat)
    requires Serves(s)
    requires s.rrIndex + Lcm(|s.targets|, |s.sessions|) <= TWO_64 && i < Lcm(|s.targets|, |s.sessions|)
    ensures Fair(s.rrIndex, |s.targets|, |s.sessions|)
    ensures |Dispatched(s, Lcm(|s.targets|, |s.sessions|))| == Lcm(|s.targets|, |s.sessions|)
    ensures var (t, k) := Pick(Counter(s.rrIndex, i), |s.targets|, |s.sessions|);
      Dispatched(s, Lcm(|s.targets|, |s.sessions|))[i] == Some((s.targets[t], s.sessions[k]))
  {
    FairBeforeWrap(s.rrIndex, |s.targets|, |s.sessions|);
    DispatchedAt(s, Lcm(|s.targets|, |s.sessions|), i);
  }

  /** For two minutes after a push its targets are served, whatever the file says, and then those of the file. */
  lemma PushLastsTwoMinutes(s: Server, query: string, pushed: int, content: string, now: int)
    requires query != ""
    ensures var v := Reload(Reload(s, query, None, pushed), "", Some(content), now);
      v.targets == if now - pushed < 120_000_000_000 then Fields(query) else Fields(content)
  {
    FieldsTrimSpace(content);
  }

  /** A file that says what was pushed last is served at any time, whatever was served before. */
  lemma AgreeingFileIsServed(s: Server, content: string, now: int)
    requires Fields(content) == s.pushTargets
    ensures Reload(s, "", Some(content), now) == s.(targets := s.pushTargets)
  {
    FieldsTrimSpace(content);
  }
}
