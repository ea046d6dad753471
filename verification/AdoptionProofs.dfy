/** Adopting a container loses nothing that enforcing its spec would notice. */
module AdoptionProofs {
  import opened Go
  import opened Text
  import opened Floats
  import opened CPULimits
  import opened DockerEngine
  import opened ContainerSpecs
  import opened Adoption

  // ---- Memory ----

  /** The text of an integer is its own lower-case, trimmed form and ends in a digit. */
  lemma FormattedIsPlain(n: int)
    ensures var s := FormatInt(n); ToLower(s) == s && TrimSpace(s) == s && IsDigit(s[|s| - 1])
  {
    var s := FormatInt(n);
    assert forall i :: 0 <= i < |s| ==> IsDigit(s[i]) || s[i] == '-';
    assert IsDigit(s[|s| - 1]);
    assert ToLower(s) == s;
    TrimTight(s);
  }

  lemma PlainText(s: string, n: int64)
    requires s != "" && ToLower(s) == s && TrimSpace(s) == s && IsDigit(s[|s| - 1]) && ParseInt(s) == Some(n)
    ensures ParseMemory(s) == n
  {
  }

  lemma PlainMemory(n: int64)
    ensures ParseMemory(FormatInt(n)) == n
  {
    FormattedIsPlain(n);
    ParseFormatted(n);
    PlainText(FormatInt(n), n);
  }

  /** The bytes that a unit stands for. */
  predicate MemoryUnit(unit: char, bytes: int) {
    || (unit in {'k', 'K'} && bytes == 1024)
    || (unit in {'m', 'M'} && bytes == 1024 * 1024)
    || (unit in {'g', 'G'} && bytes == 1024 * 1024 * 1024)
  }

  lemma UnitText(n: int64, unit: char)
    requires unit in {'k', 'K', 'm', 'M', 'g', 'G'}
    ensures var digits, u := FormatInt(n), LowerChar(unit);
      var s := TrimSpace(ToLower(digits + [unit]));
      s != "" && s[|s| - 1] == u && s[..|s| - 1] == digits && ParseInt(digits) == Some(n)
  {
    var digits := FormatInt(n);
    var s := digits + [LowerChar(unit)];
    FormattedIsPlain(n);
    ParseFormatted(n);
    assert !IsSpace(digits[0]);
    assert ToLower(digits + [unit]) == s;
    TrimTight(s);
    assert s[..|s| - 1] == digits;
  }

  lemma Wraps(value: int)
    ensures var r := Int64(value); (r - value) % TWO_64 == 0 && (-TWO_63 <= value < TWO_63 ==> r == value)
  {
  }

  /** A number with a unit, in either case, is that many kibibytes, mebibytes or gibibytes, modulo 2^64. */
  lemma UnitMemory(n: int64, unit: char, bytes: int)
    requires MemoryUnit(unit, bytes)
    ensures var r := ParseMemory(FormatInt(n) + [unit]);
      (r - n * bytes) % TWO_64 == 0 && (-TWO_63 <= n * bytes < TWO_63 ==> r == n * bytes)
  {
    UnitText(n, unit);
    Wraps(n * bytes);
    if bytes == 1024 {
      assert LowerChar(unit) == 'k' && ParseMemory(FormatInt(n) + [unit]) == Int64(n * 1024);
    } else if bytes == 1024 * 1024 {
      assert LowerChar(unit) == 'm' && ParseMemory(FormatInt(n) + [unit]) == Int64(n * 1048576);
    } else {
      assert LowerChar(unit) == 'g' && ParseMemory(FormatInt(n) + [unit]) == Int64(n * 1073741824);
    }
  }

  lemma {:induction false} TrimLeftKeeps(s: string, c: char)
    requires c in s && !IsSpace(c)
    ensures c in TrimLeft(s)
  {
    if IsSpace(s[0]) {
      assert s == [s[0]] + s[1..];
      TrimLeftKeeps(s[1..], c);
    }
  }

  lemma {:induction false} TrimRightKeeps(s: string, c: char)
    requires c in s && !IsSpace(c)
    ensures c in TrimRight(s)
  {
    var k := |s| - 1;
    if IsSpace(s[k]) {
      assert s == s[..k] + [s[k]];
      TrimRightKeeps(s[..k], c);
    }
  }

  /** A character that has no place in a memory limit. */
  predicate Foreign(c: char) {
    !IsDigit(c) && !IsSpace(c) && c !in {'+', '-', 'k', 'm', 'g', 'K', 'M', 'G'}
  }

  lemma ForeignIsNoNumber(s: string, c: char)
    requires c in s && Foreign(c)
    ensures ParseInt(s) == None
  {
    var digits := if s[0] == '-' || s[0] == '+' then s[1..] else s;
    assert s == [s[0]] + s[1..];
    assert c in digits;
  }

  /** A text that is empty, or has a foreign character, is no limit. */
  lemma NoMemoryLimit(s: string)
    ensures s == "" ==> ParseMemory(s) == 0
    ensures forall c :: c in s && Foreign(c) ==> ParseMemory(s) == 0
  {
    forall c | c in s && Foreign(c) ensures ParseMemory(s) == 0 {
      var lower := ToLower(s);
      var i :| 0 <= i < |s| && s[i] == c;
      var d := LowerChar(c);
      assert lower[i] == d && Foreign(d);
      TrimLeftKeeps(lower, d);
      TrimRightKeeps(TrimLeft(lower), d);
      var text := TrimSpace(lower);
      var last := text[|text| - 1];
      assert text == text[..|text| - 1] + [last];
      ForeignIsNoNumber(text, d);
      if last in {'k', 'm', 'g'} {
        ForeignIsNoNumber(text[..|text| - 1], d);
      }
    }
  }

  lemma MebibytesDivide(n: int)
    ensures n * MIB / MIB == n && n * MIB % MIB == 0
  {
  }

  /** Whole mebibytes are written as such. */
  lemma MebibytesAreWritten(n: int64)
    requires 0 < n && n * MIB < TWO_63
    ensures FormatMemory(n * MIB) == FormatInt(n) + "m"
  {
    MebibytesDivide(n);
  }

  /** A blank at either end of a memory limit does not matter. */
  lemma MemoryIgnoresBlanks(s: string, c: char)
    requires IsSpace(c)
    ensures ParseMemory([c] + s) == ParseMemory(s) && ParseMemory(s + [c]) == ParseMemory(s)
  {
    assert ToLower([c] + s) == [c] + ToLower(s) && ToLower(s + [c]) == ToLower(s) + [c];
    TrimIgnoresBlanks(ToLower(s), c);
  }

  /** Every memory limit survives being printed and parsed, with or without its unit. */
  lemma MemoryRoundTrip(memory: int64)
    ensures ParseMemory(FormatMemory(memory)) == memory
  {
    if memory > 0 && memory % MIB == 0 {
      var units := memory / MIB;
      assert units * MIB == memory;
      UnitMemory(units, 'm', MIB);
    } else {
      PlainMemory(memory);
    }
  }

  // ---- Adopting, then enforcing ----

  /** What the API server fills in for an omitted restart policy. */
  function Defaulted(spec: Spec): Spec {
    if spec.restartPolicy == "" then spec.(restartPolicy := "always") else spec
  }

  lemma CPURoundTrip(f: Floats, n: int64)
    requires IEEE(f) && n > 0
    ensures FormatCPU(f, n) != "" && ParseCPU(f, FormatCPU(f, n)) == n <==> Survives(n)
  {
    SurvivesExactly(f, n);
  }

  lemma SortedIsThere(env: seq<string>)
    ensures !MissesEnv(env, Sort(env))
  {
    forall i | 0 <= i < |Sort(env)| ensures Sort(env)[i] in env {
      assert Sort(env)[i] in multiset(Sort(env));
    }
  }

  /** Enforcing the adopted spec recreates the container exactly if it has no restart policy of its
      own to be compared with the default, one limit is negative while the other one is set, or the
      CPU limit does not survive being printed and parsed. */
  lemma AdoptThenEnforce(f: Floats, hostName: string, listed: string, inspect: InspectReply, order: seq<PortKey>)
    requires IEEE(f)
    ensures var spec := SnapshotSpec(f, hostName, listed, inspect, order);
      NeedsRecreate(f, Some(inspect.config), inspect.host, Defaulted(spec)) <==>
        && inspect.host.Some?
        && var host := inspect.host.value;
           (|| host.restartPolicy == ""
            || host.nanoCPUs < 0 < host.memory
            || host.memory < 0 < host.nanoCPUs
            || (host.nanoCPUs > 0 && !Survives(host.nanoCPUs)))
  {
    SortedIsThere(inspect.config.env);
    if inspect.host.Some? {
      var host := inspect.host.value;
      MemoryRoundTrip(host.memory);
      assert FormatMemory(host.memory) != "";
      assert host.restartPolicy == "" ==> ToLower("")  == "" && |ToLower("always")| == 6;
      if host.nanoCPUs > 0 {
        CPURoundTrip(f, host.nanoCPUs);
      }
    }
  }

  /** With limits that are not negative, of which the one on CPUs survives, and a restart policy,
      adopting and then enforcing never recreates. */
  lemma NeverRecreates(f: Floats, hostName: string, listed: string, inspect: InspectReply, order: seq<PortKey>)
    requires IEEE(f)
    requires inspect.host.Some? ==>
      && inspect.host.value.memory >= 0
      && inspect.host.value.restartPolicy != ""
      && inspect.host.value.nanoCPUs >= 0
      && (inspect.host.value.nanoCPUs > 0 ==> Survives(inspect.host.value.nanoCPUs))
    ensures !NeedsRecreate(f, Some(inspect.config), inspect.host,
                           Defaulted(SnapshotSpec(f, hostName, listed, inspect, order)))
  {
    AdoptThenEnforce(f, hostName, listed, inspect, order);
  }

  /** A container limited to 1.001 CPUs is recreated as soon as its adopted spec is enforced. */
  lemma JustOverOneCoreIsRecreated(
    f: Floats, hostName: string, listed: string, inspect: InspectReply, order: seq<PortKey>)
    requires IEEE(f) && inspect.host.Some? && inspect.host.value.nanoCPUs == 1_001_000_000
    ensures NeedsRecreate(f, Some(inspect.config), inspect.host,
                          Defaulted(SnapshotSpec(f, hostName, listed, inspect, order)))
  {
    JustOverOneCoreDrifts(f);
    SurvivesExactly(f, 1_001_000_000);
    AdoptThenEnforce(f, hostName, listed, inspect, order);
  }

  // ---- Order does not matter ----

  function Gather<T, U>(h: T -> multiset<U>, s: seq<T>): multiset<U> {
    if s == [] then multiset{} else h(s[0]) + Gather(h, s[1..])
  }

  lemma {:induction false} GatherMoved<T, U>(h: T -> multiset<U>, a: seq<T>, x: T, b: seq<T>)
    ensures Gather(h, a + [x] + b) == h(x) + Gather(h, a + b)
  {
    if a == [] {
      assert (a + [x] + b)[1..] == b && a + b == b;
    } else {
      assert (a + [x] + b)[1..] == a[1..] + [x] + b;
      assert (a + b)[1..] == a[1..] + b;
      GatherMoved(h, a[1..], x, b);
    }
  }

  lemma MultisetWithout<T>(t: seq<T>, i: nat)
    requires i < |t|
    ensures multiset(t[..i] + t[i + 1..]) == multiset(t) - multiset{t[i]}
  {
    assert t == t[..i] + [t[i]] + t[i + 1..];
  }

  lemma SameRest<T>(s: seq<T>, t: seq<T>, i: nat)
    requires s != [] && i < |t| && t[i] == s[0] && multiset(s) == multiset(t)
    ensures multiset(s[1..]) == multiset(t[..i] + t[i + 1..])
  {
    MultisetWithout(t, i);
    MultisetWithout(s, 0);
    assert s[..0] + s[1..] == s[1..];
  }

  lemma GatherOneOut<T, U>(h: T -> multiset<U>, t: seq<T>, i: nat)
    requires i < |t|
    ensures Gather(h, t) == h(t[i]) + Gather(h, t[..i] + t[i + 1..])
  {
    GatherMoved(h, t[..i], t[i], t[i + 1..]);
    assert t == t[..i] + [t[i]] + t[i + 1..];
  }

  /** What is gathered from the elements depends on the elements only. */
  lemma {:induction false} GatherPermuted<T, U>(h: T -> multiset<U>, s: seq<T>, t: seq<T>)
    requires multiset(s) == multiset(t)
    ensures Gather(h, s) == Gather(h, t)
  {
    if s == [] {
      assert |multiset(t)| == 0;
    } else {
      assert s[0] in multiset(t);
      var i :| 0 <= i < |t| && t[i] == s[0];
      SameRest(s, t, i);
      GatherPermuted(h, s[1..], t[..i] + t[i + 1..]);
      GatherOneOut(h, t, i);
    }
  }

  ghost function TextsOf(m: PortMap): PortKey -> multiset<string> {
    key => if key in m then multiset(MappingsOf(key, m[key])) else multiset{}
  }

  lemma {:induction false} MappingsGathered(order: seq<PortKey>, m: PortMap)
    ensures multiset(MappingsIn(order, m)) == Gather(TextsOf(m), order)
  {
    if order != [] {
      MappingsGathered(order[1..], m);
    }
  }

  /** The snapshot spec is the same for every iteration order of the port map and every order of the
      environment: both controllers hash the same spec for the same container. */
  lemma SnapshotIsCanonical(f: Floats, hostName: string, listed: string, a: InspectReply, b: InspectReply,
                            orderA: seq<PortKey>, orderB: seq<PortKey>)
    requires a == b.(config := b.config.(env := a.config.env))
    requires multiset(a.config.env) == multiset(b.config.env)
    requires a.ports.Some? ==> IterationOrder(orderA, a.ports.value) && IterationOrder(orderB, a.ports.value)
    ensures SnapshotSpec(f, hostName, listed, a, orderA) == SnapshotSpec(f, hostName, listed, b, orderB)
  {
    SortCanonical(a.config.env, b.config.env);
    if a.ports.Some? {
      var m := a.ports.value;
      MappingsGathered(orderA, m);
      MappingsGathered(orderB, m);
      GatherPermuted(TextsOf(m), orderA, orderB);
      SortCanonical(MappingsIn(orderA, m), MappingsIn(orderB, m));
    }
  }

  // ---- Ports ----

  function Hosts(bindings: seq<PortBinding>): seq<string> {
    if bindings == [] then [] else [bindings[0].hostPort] + Hosts(bindings[1..])
  }

  function PublishedHosts(bindings: seq<PortBinding>): seq<string> {
    if bindings == [] then []
    else
      var rest := PublishedHosts(bindings[1..]);
      if bindings[0].hostPort == "" then rest else [bindings[0].hostPort] + rest
  }

  /** A single tcp port of the range that ports have. */
  predicate TCPPort(key: PortKey) {
    key.first == key.last && key.first <= 65535 && key.proto == "tcp"
  }

  predicate PlainHosts(bindings: seq<PortBinding>) {
    forall i :: 0 <= i < |bindings| ==> ':' !in bindings[i].hostPort
  }

  /** Single ports of the range that ports have, and host ports without a colon: what Docker reports. */
  ghost predicate PlainPorts(m: PortMap) {
    forall key :: key in m ==> key.first == key.last && key.first <= 65535 && PlainHosts(m[key])
  }

  /** Whatever is published is published over tcp. */
  ghost predicate PublishesTCP(m: PortMap) {
    forall key :: key in m && PublishedHosts(m[key]) != [] ==> key.proto == "tcp"
  }

  lemma NewPortOfText(key: PortKey)
    requires TCPPort(key)
    ensures NewPort("tcp", FormatInt(key.first)) == Some(key)
  {
    var text := FormatInt(key.first);
    assert AllDigits(text);
    CutNone(text, '-');
    NatRoundTrip(key.first);
  }

  /** The host port a text publishes the given container port on. */
  ghost function HostOf(key: PortKey): string -> multiset<string> {
    text =>
      var parts := Cut(text, ':');
      if parts.Some? && NewPort("tcp", parts.value.1) == Some(key) then multiset{parts.value.0} else multiset{}
  }

  /** A mapping printed for a tcp port is parsed to that port and host port. */
  lemma MappingParses(m: PortMap, hostPort: string, key: PortKey, other: PortKey)
    requires TCPPort(key) && ':' !in hostPort
    ensures ParsePort(m, Mapping(hostPort, key)) == Some(AddBinding(m, key, PortBinding("0.0.0.0", hostPort)))
    ensures HostOf(other)(Mapping(hostPort, key)) == if other == key then multiset{hostPort} else multiset{}
  {
    var text := FormatInt(key.first);
    assert Mapping(hostPort, key) == hostPort + [':'] + text;
    CutAt(hostPort, ':', text);
    NewPortOfText(key);
  }

  ghost predicate IsMapping(text: string) {
    exists h: string, key: PortKey :: text == Mapping(h, key) && TCPPort(key) && ':' !in h
  }

  /** Every text is the mapping of some tcp port. */
  ghost predicate AllMappings(texts: seq<string>) {
    forall i :: 0 <= i < |texts| ==> IsMapping(texts[i])
  }

  function BindingsAt(m: PortMap, key: PortKey): seq<PortBinding> {
    if key in m then m[key] else []
  }

  lemma {:induction false} HostsSnoc(bindings: seq<PortBinding>, b: PortBinding)
    ensures Hosts(bindings + [b]) == Hosts(bindings) + [b.hostPort]
  {
    if bindings == [] {
      assert bindings + [b] == [b];
      assert [b][1..] == [];
    } else {
      assert (bindings + [b])[1..] == bindings[1..] + [b];
      HostsSnoc(bindings[1..], b);
    }
  }

  ghost predicate Wildcards(m: PortMap) {
    forall key :: key in m ==>
      m[key] != [] && forall i :: 0 <= i < |m[key]| ==> m[key][i].hostIP == "0.0.0.0"
  }

  lemma BindingAdded(m: PortMap, k: PortKey, h: string, key: PortKey)
    requires Wildcards(m)
    ensures var m1 := AddBinding(m, k, PortBinding("0.0.0.0", h));
      && Wildcards(m1)
      && multiset(Hosts(BindingsAt(m1, key))) ==
         multiset(Hosts(BindingsAt(m, key))) + if key == k then multiset{h} else multiset{}
  {
    HostsSnoc(BindingsAt(m, k), PortBinding("0.0.0.0", h));
  }

  lemma FirstParsed(m: PortMap, texts: seq<string>, next: PortMap, key: PortKey)
    requires texts != [] && ParsePort(m, texts[0]) == Some(next)
    ensures ParsePortsFrom(m, texts) == ParsePortsFrom(next, texts[1..])
    ensures Gather(HostOf(key), texts) == HostOf(key)(texts[0]) + Gather(HostOf(key), texts[1..])
  {
  }

  /** Parsing a list of mappings adds, for each port, the host ports the list gives for it. */
  lemma {:induction false} ParsedHosts(m: PortMap, texts: seq<string>, key: PortKey)
    requires AllMappings(texts) && Wildcards(m)
    ensures var r := ParsePortsFrom(m, texts);
      && r.Some? && Wildcards(r.value)
      && multiset(Hosts(BindingsAt(r.value, key))) ==
         multiset(Hosts(BindingsAt(m, key))) + Gather(HostOf(key), texts)
    decreases |texts|
  {
    if texts != [] {
      assert IsMapping(texts[0]);
      var h: string, k: PortKey :| texts[0] == Mapping(h, k) && TCPPort(k) && ':' !in h;
      MappingParses(m, h, k, key);
      BindingAdded(m, k, h, key);
      var next := AddBinding(m, k, PortBinding("0.0.0.0", h));
      FirstParsed(m, texts, next, key);
      ParsedHosts(next, texts[1..], key);
    }
  }

  lemma {:induction false} GatherAppend<T, U>(h: T -> multiset<U>, a: seq<T>, b: seq<T>)
    ensures Gather(h, a + b) == Gather(h, a) + Gather(h, b)
  {
    if a == [] {
      assert a + b == b;
    } else {
      assert (a + b)[1..] == a[1..] + b;
      GatherAppend(h, a[1..], b);
    }
  }

  lemma {:induction false} GatherCons<T, U>(h: T -> multiset<U>, x: T, s: seq<T>)
    ensures Gather(h, [x] + s) == h(x) + Gather(h, s)
  {
    assert ([x] + s)[1..] == s;
  }

  lemma {:induction false} MappingsOfGather(h: string -> multiset<string>, g: string -> multiset<string>,
                                            key: PortKey, bindings: seq<PortBinding>)
    requires forall i :: 0 <= i < |bindings| ==> h(Mapping(bindings[i].hostPort, key)) == g(bindings[i].hostPort)
    ensures Gather(h, MappingsOf(key, bindings)) == Gather(g, PublishedHosts(bindings))
  {
    if bindings != [] {
      MappingsOfGather(h, g, key, bindings[1..]);
      var hostPort := bindings[0].hostPort;
      if hostPort != "" {
        GatherCons(h, Mapping(hostPort, key), MappingsOf(key, bindings[1..]));
        GatherCons(g, hostPort, PublishedHosts(bindings[1..]));
      }
    }
  }

  function Single(keep: bool): string -> multiset<string> {
    host => if keep then multiset{host} else multiset{}
  }

  lemma {:induction false} GatherSingles(hosts: seq<string>, keep: bool)
    ensures Gather(Single(keep), hosts) == if keep then multiset(hosts) else multiset{}
  {
    if hosts != [] {
      GatherSingles(hosts[1..], keep);
      assert hosts == [hosts[0]] + hosts[1..];
    }
  }

  /** The mappings of one port give its published host ports back, and nothing for other ports. */
  lemma MappingsOfHosts(key: PortKey, bindings: seq<PortBinding>, other: PortKey)
    requires TCPPort(key) && PlainHosts(bindings)
    ensures Gather(HostOf(other), MappingsOf(key, bindings)) ==
            if other == key then multiset(PublishedHosts(bindings)) else multiset{}
  {
    forall i | 0 <= i < |bindings|
      ensures HostOf(other)(Mapping(bindings[i].hostPort, key)) == Single(other == key)(bindings[i].hostPort)
    {
      MappingParses(map[], bindings[i].hostPort, key, other);
    }
    MappingsOfGather(HostOf(other), Single(other == key), key, bindings);
    GatherSingles(PublishedHosts(bindings), other == key);
  }

  lemma {:induction false} MappingsOfAreMappings(key: PortKey, bindings: seq<PortBinding>)
    requires TCPPort(key) && PlainHosts(bindings)
    ensures AllMappings(MappingsOf(key, bindings))
  {
    if bindings != [] {
      MappingsOfAreMappings(key, bindings[1..]);
      assert IsMapping(Mapping(bindings[0].hostPort, key));
    }
  }

  lemma {:induction false} UnpublishedHasNoMapping(key: PortKey, bindings: seq<PortBinding>)
    requires PublishedHosts(bindings) == []
    ensures MappingsOf(key, bindings) == []
  {
    if bindings != [] {
      UnpublishedHasNoMapping(key, bindings[1..]);
    }
  }

  lemma {:induction false} MappingsInAreMappings(order: seq<PortKey>, m: PortMap)
    requires PlainPorts(m) && PublishesTCP(m)
    ensures AllMappings(MappingsIn(order, m))
  {
    if order != [] {
      MappingsInAreMappings(order[1..], m);
      if order[0] in m {
        if PublishedHosts(m[order[0]]) == [] {
          UnpublishedHasNoMapping(order[0], m[order[0]]);
        } else {
          MappingsOfAreMappings(order[0], m[order[0]]);
        }
      }
    }
  }

  lemma PublishedPort(port: PortKey, bindings: seq<PortBinding>, key: PortKey)
    requires port.first == port.last && port.first <= 65535 && PlainHosts(bindings)
    requires PublishedHosts(bindings) != [] ==> port.proto == "tcp"
    ensures Gather(HostOf(key), MappingsOf(port, bindings)) ==
            if key == port then multiset(PublishedHosts(bindings)) else multiset{}
  {
    if PublishedHosts(bindings) == [] {
      UnpublishedHasNoMapping(port, bindings);
    } else {
      MappingsOfHosts(port, bindings, key);
    }
  }

  lemma {:induction false} MappingsInHosts(order: seq<PortKey>, m: PortMap, key: PortKey)
    requires PlainPorts(m) && PublishesTCP(m) && forall i, k :: 0 <= i < k < |order| ==> order[i] != order[k]
    ensures Gather(HostOf(key), MappingsIn(order, m)) ==
            if key in order && key in m then multiset(PublishedHosts(m[key])) else multiset{}
  {
    if order != [] {
      MappingsInHosts(order[1..], m, key);
      var rest := MappingsIn(order[1..], m);
      if order[0] in m {
        PublishedPort(order[0], m[order[0]], key);
        GatherAppend(HostOf(key), MappingsOf(order[0], m[order[0]]), rest);
      } else {
        assert [] + rest == rest;
      }
    }
  }

  lemma {:induction false} NoRepeats(order: seq<PortKey>, keys: set<PortKey>)
    requires multiset(order) == multiset(keys)
    ensures forall i, k :: 0 <= i < k < |order| ==> order[i] != order[k]
    ensures forall key :: key in order <==> key in keys
  {
    forall i, k | 0 <= i < k < |order| ensures order[i] != order[k] {
      var a, b := order[..k], order[k..];
      assert order == a + b;
      assert a[i] in multiset(a) && b[0] in multiset(b);
      assert multiset(order)[order[i]] <= 1;
    }
    forall key ensures key in order <==> key in keys {
      assert key in order <==> key in multiset(order);
    }
  }

  lemma MappingsStay(a: seq<string>, b: seq<string>)
    requires AllMappings(a) && multiset(a) == multiset(b)
    ensures AllMappings(b)
  {
    forall i | 0 <= i < |b| ensures IsMapping(b[i]) {
      assert b[i] in multiset(a);
      assert b[i] in a;
    }
  }

  /** The parsed ports give, for every container port, exactly the published host ports. */
  ghost predicate PortsSurvive(order: seq<PortKey>, m: PortMap) {
    var r := ParsePorts(CollectPortMappings(order, m));
    r.Some? && forall key :: multiset(Hosts(BindingsAt(r.value, key))) == multiset(PublishedHosts(BindingsAt(m, key)))
  }

  /** Collecting the ports of a container and parsing them gives, for every container port, exactly the
      published host ports, all of them on every address. */
  lemma PortsRoundTrip(order: seq<PortKey>, m: PortMap, key: PortKey)
    requires PlainPorts(m) && PublishesTCP(m) && IterationOrder(order, m)
    ensures var r := ParsePorts(CollectPortMappings(order, m));
      && r.Some? && Wildcards(r.value)
      && multiset(Hosts(BindingsAt(r.value, key))) == multiset(PublishedHosts(BindingsAt(m, key)))
  {
    NoRepeats(order, m.Keys);
    var texts := MappingsIn(order, m);
    MappingsInAreMappings(order, m);
    MappingsInHosts(order, m, key);
    MappingsStay(texts, Sort(texts));
    ParsedHosts(map[], Sort(texts), key);
    GatherPermuted(HostOf(key), Sort(texts), texts);
  }

  /** Parsed ports are tcp ports. */
  lemma {:induction false} ParsedAreTCP(m: PortMap, texts: seq<string>)
    requires forall key :: key in m ==> key.proto == "tcp"
    ensures var r := ParsePortsFrom(m, texts);
      r.Some? ==> forall key :: key in r.value ==> key.proto == "tcp"
    decreases |texts|
  {
    if texts != [] {
      var next := ParsePort(m, texts[0]);
      if next.Some? {
        ParsedAreTCP(next.value, texts[1..]);
      }
    }
  }

  /** The ports survive exactly if every port with a published host port is a tcp port: a mapping has no
      room for the protocol. */
  lemma PortsSurviveExactly(order: seq<PortKey>, m: PortMap)
    requires PlainPorts(m) && IterationOrder(order, m)
    ensures PortsSurvive(order, m) <==> PublishesTCP(m)
  {
    if PublishesTCP(m) {
      forall key
        ensures var r := ParsePorts(CollectPortMappings(order, m));
          r.Some? && multiset(Hosts(BindingsAt(r.value, key))) == multiset(PublishedHosts(BindingsAt(m, key)))
      {
        PortsRoundTrip(order, m, key);
      }
      PortsRoundTrip(order, m, PortKey(0, 0, "tcp"));
    }
    if PortsSurvive(order, m) {
      ParsedAreTCP(map[], CollectPortMappings(order, m));
      var r := ParsePorts(CollectPortMappings(order, m)).value;
      forall key | key in m && PublishedHosts(m[key]) != [] ensures key.proto == "tcp" {
        assert |multiset(Hosts(BindingsAt(r, key)))| == |multiset(PublishedHosts(BindingsAt(m, key)))|;
      }
    }
  }

  lemma OneMapping(key: PortKey, b: PortBinding)
    requires b.hostPort != ""
    ensures CollectPortMappings([key], map[key := [b]]) == [Mapping(b.hostPort, key)]
  {
    var m := map[key := [b]];
    var text := Mapping(b.hostPort, key);
    MappingsOfSnoc(key, [], b);
    assert [] + [b] == [b] && MappingsAt(key, m) == [text];
    MappingsInSnoc([], key, m);
    assert [] + [key] == [key] && MappingsIn([key], m) == [text];
    SortedUnique([text], Sort([text]));
  }

  lemma ParseOne(text: string, m: PortMap)
    requires ParsePort(map[], text) == Some(m)
    ensures ParsePorts([text]) == Some(m)
  {
    assert [text][1..] == [];
    assert ParsePortsFrom(map[], [text]) == ParsePortsFrom(m, []);
  }

  lemma FirstBinding(key: PortKey, b: PortBinding)
    ensures AddBinding(map[], key, b) == map[key := [b]]
  {
    assert [] + [b] == [b];
  }

  lemma OneParsed(key: PortKey, hostPort: string)
    requires TCPPort(key) && ':' !in hostPort
    ensures ParsePorts([Mapping(hostPort, key)]) == Some(map[key := [PortBinding("0.0.0.0", hostPort)]])
  {
    MappingParses(map[], hostPort, key, key);
    FirstBinding(key, PortBinding("0.0.0.0", hostPort));
    ParseOne(Mapping(hostPort, key), map[key := [PortBinding("0.0.0.0", hostPort)]]);
  }

  /** A single published port of any protocol comes back as a tcp port. */
  lemma AnyProtocolBecomesTCP(port: nat, proto: string, hostPort: string, hostIP: string)
    requires port <= 65535 && hostPort != "" && ':' !in hostPort
    ensures var key := PortKey(port, port, proto);
      ParsePorts(CollectPortMappings([key], map[key := [PortBinding(hostIP, hostPort)]])) ==
      Some(map[PortKey(port, port, "tcp") := [PortBinding("0.0.0.0", hostPort)]])
  {
    var key, tcp := PortKey(port, port, proto), PortKey(port, port, "tcp");
    OneMapping(key, PortBinding(hostIP, hostPort));
    assert Mapping(hostPort, key) == Mapping(hostPort, tcp);
    OneParsed(tcp, hostPort);
  }

  // ---- Names ----

  /** A name of lower-case letters, digits and single inner dashes. */
  ghost predicate ObjectName(s: string) {
    && s != ""
    && (forall i :: 0 <= i < |s| ==> NameChar(s[i]) || s[i] == '-')
    && s[0] != '-' && s[|s| - 1] != '-'
    && (forall i :: 0 <= i < |s| - 1 ==> s[i] != '-' || s[i + 1] != '-')
  }

  ghost predicate SingleDashes(s: string) {
    && (forall i :: 0 <= i < |s| ==> NameChar(s[i]) || s[i] == '-')
    && (forall i :: 0 <= i < |s| - 1 ==> s[i] != '-' || s[i + 1] != '-')
  }

  lemma {:induction false} DashedHasSingleDashes(s: string)
    ensures SingleDashes(Dashed(s))
  {
    if s != [] {
      DashedHasSingleDashes(s[..|s| - 1]);
    }
  }

  lemma {:induction false} TrimmedDashes(s: string)
    requires SingleDashes(s)
    ensures var t := TrimDashes(s); SingleDashes(t) && (t != "" ==> t[0] != '-' && t[|t| - 1] != '-')
    decreases |s|
  {
    if s != [] && s[0] == '-' {
      TrimmedDashes(s[1..]);
    } else if s != [] && s[|s| - 1] == '-' {
      TrimmedDashes(s[..|s| - 1]);
    }
  }

  /** Whatever the container is called, the object name is well-formed. */
  lemma AdoptedNameIsWellFormed(containerName: string)
    ensures ObjectName(AdoptedObjectName(containerName))
  {
    DashedHasSingleDashes(ToLower(containerName));
    TrimmedDashes(Dashed(ToLower(containerName)));
  }

  lemma {:induction false} DashedKeeps(s: string)
    requires SingleDashes(s)
    ensures Dashed(s) == s
  {
    if s != [] {
      DashedKeeps(s[..|s| - 1]);
      assert s == s[..|s| - 1] + [s[|s| - 1]];
    }
  }

  /** A well-formed name is kept, so sanitising twice is sanitising once. */
  lemma AdoptedNameIsStable(name: string)
    requires ObjectName(name)
    ensures AdoptedObjectName(name) == name
  {
    assert ToLower(name) == name;
    DashedKeeps(name);
  }

  /** The letters and digits of a text. */
  function Letters(s: string): string {
    if s == [] then []
    else
      var k := |s| - 1;
      Letters(s[..k]) + if NameChar(s[k]) then [s[k]] else []
  }

  lemma {:induction false} LettersAppend(a: string, b: string)
    ensures Letters(a + b) == Letters(a) + Letters(b)
    decreases |b|
  {
    if b == [] {
      assert a + b == a;
    } else {
      var k := |b| - 1;
      assert (a + b)[..|a| + k] == a + b[..k];
      LettersAppend(a, b[..k]);
    }
  }

  lemma OneLetter(c: char)
    ensures Letters([c]) == if NameChar(c) then [c] else []
  {
    assert [c][..0] == [];
  }

  lemma {:induction false} DashedKeepsLetters(s: string)
    ensures Letters(Dashed(s)) == Letters(s)
  {
    if s != [] {
      var k := |s| - 1;
      DashedKeepsLetters(s[..k]);
      LettersAppend(Dashed(s[..k]), [s[k]]);
      LettersAppend(Dashed(s[..k]), ['-']);
      OneLetter(s[k]);
      OneLetter('-');
    }
  }

  lemma {:induction false} TrimKeepsLetters(s: string)
    ensures Letters(TrimDashes(s)) == Letters(s)
    decreases |s|
  {
    if s != [] && s[0] == '-' {
      assert s == ['-'] + s[1..];
      LettersAppend(['-'], s[1..]);
      OneLetter('-');
      TrimKeepsLetters(s[1..]);
    } else if s != [] && s[|s| - 1] == '-' {
      TrimKeepsLetters(s[..|s| - 1]);
    }
  }

  lemma {:induction false} NoLetters(s: string)
    requires SingleDashes(s) && (s != "" ==> s[0] != '-')
    ensures Letters(s) == [] <==> s == []
  {
    if s != [] {
      assert s == [s[0]] + s[1..];
      LettersAppend([s[0]], s[1..]);
      OneLetter(s[0]);
    }
  }

  /** The sanitised name has the letters and digits of the container's name, in lower case and in their order; a
      name without any is replaced. */
  lemma AdoptedNameKeepsLetters(containerName: string)
    ensures var letters, name := Letters(ToLower(containerName)), AdoptedObjectName(containerName);
      if letters == "" then name == "adopted-container" else Letters(name) == letters
  {
    var dashed := Dashed(ToLower(containerName));
    DashedHasSingleDashes(ToLower(containerName));
    TrimmedDashes(dashed);
    DashedKeepsLetters(ToLower(containerName));
    TrimKeepsLetters(dashed);
    NoLetters(TrimDashes(dashed));
  }

  /** The snapshot's container name is the one that the inspect reply gives, or else the listed one, without the
      slash in front. */
  lemma SnapshotNames(
    f: Floats, hostName: string, listed: string, inspect: InspectReply, order: seq<PortKey>, name: string)
    requires if inspect.name == "" then listed == "/" + name else inspect.name == "/" + name
    ensures SnapshotSpec(f, hostName, listed, inspect, order).containerName == name
  {
    assert ("/" + name)[1..] == name;
  }
}
