/** The list of targets from the operator that writes it to the client that dials one of them
    (internal/controller/dockerservice_controller.go, internal/tunnel/server.go, internal/tunnel/client.go). */
module TunnelTargets {
  import opened Go
  import opened Text
  import opened TunnelModel
  import opened TunnelHeader

  // ---- The operator's side ----

  function Endpoint(address: string, port: int32): string {
    address + ":" + FormatInt(port)
  }

  /** buildTargetIPs over the IPv4 addresses in the containers' status; the empty text is no address. */
  function TargetIPs(addresses: seq<string>, port: int32): seq<string> {
    if addresses == [] then []
    else
      var k := |addresses| - 1;
      TargetIPs(addresses[..k], port) + if addresses[k] != "" then [Endpoint(addresses[k], port)] else []
  }

  method BuildTargetIPs(addresses: seq<string>, port: int32) returns (ips: seq<string>)
    ensures ips == TargetIPs(addresses, port)
  {
    ips := [];
    var i := 0;
    while i < |addresses|
      invariant 0 <= i <= |addresses|
      invariant ips == TargetIPs(addresses[..i], port)
    {
      assert addresses[..i + 1][..i] == addresses[..i];
      if addresses[i] != "" {
        ips := ips + [Endpoint(addresses[i], port)];
      }
      i := i + 1;
    }
    assert addresses[..i] == addresses;
  }

  /** The text that goes into the ConfigMap and into the reload request. */
  function TargetsText(ips: seq<string>): string {
    Join(Sort(ips))
  }

  // ---- Splitting and joining undo each other ----

  lemma {:induction false} PartsHaveNoComma(s: string)
    ensures forall i :: 0 <= i < |Split(s)| ==> ',' !in Split(s)[i]
  {
    if s != [] {
      PartsHaveNoComma(s[1..]);
      var rest := Split(s[1..]);
      assert ',' !in rest[0];
      forall i | 0 <= i < |Split(s)| ensures ',' !in Split(s)[i] {
        assert i == 0 || Split(s)[i] == if s[0] == ',' then rest[i - 1] else rest[i];
      }
    }
  }

  lemma {:induction false} TrimLeftPart(s: string)
    ensures forall c :: c in TrimLeft(s) ==> c in s
    ensures TrimLeft(s) != [] ==> !IsSpace(TrimLeft(s)[0])
  {
    if s != [] && IsSpace(s[0]) {
      TrimLeftPart(s[1..]);
    }
  }

  lemma {:induction false} TrimRightPart(s: string)
    ensures forall c :: c in TrimRight(s) ==> c in s
    ensures TrimRight(s) != [] ==> s != [] && !IsSpace(TrimRight(s)[|TrimRight(s)| - 1]) && TrimRight(s)[0] == s[0]
  {
    if s != [] && IsSpace(s[|s| - 1]) {
      TrimRightPart(s[..|s| - 1]);
    }
  }

  lemma TrimmedIsEntry(s: string)
    requires ',' !in s && TrimSpace(s) != ""
    ensures IsEntry(TrimSpace(s))
  {
    TrimLeftPart(s);
    TrimRightPart(TrimLeft(s));
  }

  lemma {:induction false} KeptAreEntries(parts: seq<string>)
    requires forall i :: 0 <= i < |parts| ==> ',' !in parts[i]
    ensures forall i :: 0 <= i < |Kept(parts)| ==> IsEntry(Kept(parts)[i])
  {
    if parts != [] {
      KeptAreEntries(parts[1..]);
      if TrimSpace(parts[0]) != "" {
        TrimmedIsEntry(parts[0]);
      }
    }
  }

  /** Reading back the sorted, joined list gives the sorted list, exactly if every element is non-empty,
      without a comma and without outer blanks. */
  lemma TextReadsBackExactly(ips: seq<string>)
    ensures Fields(TargetsText(ips)) == Sort(ips) <==> forall e :: e in ips ==> IsEntry(e)
  {
    var sorted := Sort(ips);
    forall e ensures e in sorted <==> e in ips {
      SortHolds(ips, e);
    }
    if forall e :: e in ips ==> IsEntry(e) {
      forall i | 0 <= i < |sorted| ensures IsEntry(sorted[i]) {
        assert sorted[i] in sorted;
      }
      FieldsOfJoin(sorted);
    }
    if Fields(TargetsText(ips)) == sorted {
      PartsHaveNoComma(TargetsText(ips));
      KeptAreEntries(Split(TargetsText(ips)));
    }
  }

  // ---- From the operator to the dial ----

  /** An address as Docker reports it: no blank in front, no comma and no newline. */
  predicate IsAddress(s: string) {
    s != "" && !IsSpace(s[0]) && ',' !in s && '\n' !in s
  }

  function Pow10(k: nat): nat {
    if k == 0 then 1 else 10 * Pow10(k - 1)
  }

  lemma {:induction false} NatTextDigits(n: nat, k: nat)
    requires n < Pow10(k) && k > 0
    ensures |NatText(n)| <= k
  {
    if n >= 10 {
      NatTextDigits(n / 10, k - 1);
    }
  }

  lemma PortText(port: int32)
    ensures var t := FormatInt(port); t != "" && |t| <= 11 && !IsSpace(t[|t| - 1]) && ',' !in t && '\n' !in t
  {
    var p: int := port;
    var n: nat := if p < 0 then -p else p;
    NatTextDigits(n, 10);
    var t := FormatInt(p);
    forall i | 0 <= i < |t| ensures t[i] == '-' || IsDigit(t[i]) {
      assert p < 0 && i > 0 ==> t[i] == NatText(n)[i - 1];
    }
  }

  ghost predicate IsTarget(e: string, addresses: seq<string>, port: int32) {
    exists a :: a in addresses && a != "" && e == Endpoint(a, port)
  }

  lemma {:induction false} TargetIPsAre(addresses: seq<string>, port: int32)
    ensures forall e :: e in TargetIPs(addresses, port) <==> IsTarget(e, addresses, port)
  {
    if addresses != [] {
      var k := |addresses| - 1;
      TargetIPsAre(addresses[..k], port);
      assert addresses == addresses[..k] + [addresses[k]];
      forall e ensures IsTarget(e, addresses, port) <==>
          IsTarget(e, addresses[..k], port) || (addresses[k] != "" && e == Endpoint(addresses[k], port))
      {
      }
    }
  }

  lemma TargetIsEntry(address: string, port: int32)
    requires IsAddress(address)
    ensures var e := Endpoint(address, port); IsEntry(e) && '\n' !in e && |e| <= |address| + 12
  {
    PortText(port);
  }

  ghost predicate Usable(addresses: seq<string>) {
    forall a :: a in addresses && a != "" ==> IsAddress(a) && |a| + 12 <= MAX_HEADER
  }

  lemma SortedTargetIsUsable(addresses: seq<string>, port: int32, target: string)
    requires Usable(addresses) && target in Sort(TargetIPs(addresses, port))
    ensures '\n' !in target && |target| <= MAX_HEADER
    ensures IsTarget(target, addresses, port)
  {
    SortHolds(TargetIPs(addresses, port), target);
    TargetIPsAre(addresses, port);
    var a :| a in addresses && a != "" && target == Endpoint(a, port);
    TargetIsEntry(a, port);
  }

  lemma SortedIsEmpty(ips: seq<string>)
    ensures Sort(ips) == [] <==> ips == []
  {
    assert |multiset(Sort(ips))| == |multiset(ips)|;
  }

  lemma JoinIsEmpty(parts: seq<string>)
    requires forall i :: 0 <= i < |parts| ==> parts[i] != ""
    ensures Join(parts) == "" <==> parts == []
  {
  }

  lemma TargetsAreEntries(addresses: seq<string>, port: int32)
    requires Usable(addresses)
    ensures forall e :: e in TargetIPs(addresses, port) ==> IsEntry(e)
  {
    TargetIPsAre(addresses, port);
    forall e | e in TargetIPs(addresses, port) ensures IsEntry(e) {
      var a :| a in addresses && a != "" && e == Endpoint(a, port);
      TargetIsEntry(a, port);
    }
  }

  /** The operator has something to push exactly if some container has an address. */
  lemma NothingToPushExactly(addresses: seq<string>, port: int32)
    requires Usable(addresses)
    ensures TargetsText(TargetIPs(addresses, port)) == "" <==> TargetIPs(addresses, port) == []
    ensures TargetIPs(addresses, port) == [] <==> forall a :: a in addresses ==> a == ""
  {
    var ips := TargetIPs(addresses, port);
    TargetsAreEntries(addresses, port);
    SortedIsEmpty(ips);
    forall i | 0 <= i < |Sort(ips)| ensures Sort(ips)[i] != "" {
      SortHolds(ips, Sort(ips)[i]);
    }
    JoinIsEmpty(Sort(ips));
    TargetIPsAre(addresses, port);
    if a :| a in addresses && a != "" {
      assert IsTarget(Endpoint(a, port), addresses, port);
    }
    if ips != [] {
      assert IsTarget(ips[0], addresses, port);
    }
  }

  /** After the operator's reload request the server serves exactly the operator's targets, sorted, if and
      only if some container has an address, or there is nothing to serve: already now if the last push is
      fresh or the file cannot be read, and by the file otherwise. */
  lemma ServesOperatorsExactly(addresses: seq<string>, port: int32, s: Server, file: Option<string>, now: int)
    requires Usable(addresses) && ServesPush(s, now)
    ensures var ips := TargetIPs(addresses, port);
      Reload(s, TargetsText(ips), file, now).targets == Sort(ips) <==>
        || (exists a :: a in addresses && a != "")
        || (if InWindow(s, now) || file.None? then s.targets == [] else Fields(file.value) == [])
  {
    var ips := TargetIPs(addresses, port);
    NothingToPushExactly(addresses, port);
    if ips != [] {
      TargetsAreEntries(addresses, port);
      TextReadsBackExactly(ips);
    } else {
      SortedIsEmpty(ips);
      if file.Some? {
        FieldsTrimSpace(file.value);
      }
    }
  }

  /** Once no container has an address, the operator's request is not a push: while the last push is fresh
      it changes nothing at all, whatever the file says, and the old targets are served on. */
  lemma EmptyListIsNoPush(addresses: seq<string>, port: int32, s: Server, file: Option<string>, now: int)
    requires (forall a :: a in addresses ==> a == "") && ServesPush(s, now) && InWindow(s, now)
    ensures Reload(s, TargetsText(TargetIPs(addresses, port)), file, now) == s
  {
    NothingToPushExactly(addresses, port);
  }

  /** End to end, whatever the file says: the client that gets the connection dials the address of one of
      the operator's containers, the one whose turn it is, and then sees the payload from its first byte. */
  lemma ConnectionReachesContainer(
    addresses: seq<string>, port: int32, s: Server, file: Option<string>, now: int, payload: string)
    requires Usable(addresses) && s.sessions != [] && exists a :: a in addresses && a != ""
    ensures var ips := TargetIPs(addresses, port);
      var route := Dispatch(Reload(s, TargetsText(ips), file, now)).1;
      && Sort(ips) != [] && route.Some?
      && route.value.0 == Sort(ips)[s.rrIndex % |Sort(ips)|]
      && IsTarget(route.value.0, addresses, port)
      && ReadHeader("", WriteHeader(route.value.0) + payload) == Header(route.value.0, payload)
  {
    var ips := TargetIPs(addresses, port);
    NothingToPushExactly(addresses, port);
    SortedIsEmpty(ips);
    TargetsAreEntries(addresses, port);
    TextReadsBackExactly(ips);
    var target := Sort(ips)[s.rrIndex % |Sort(ips)|];
    SortedTargetIsUsable(addresses, port, target);
    HeaderExactly(WriteHeader(target) + payload, target, payload);
  }

  // ---- What the targets say ----

  function Given(addresses: seq<string>): seq<string> {
    if addresses == [] then []
    else
      var k := |addresses| - 1;
      Given(addresses[..k]) + if addresses[k] != "" then [addresses[k]] else []
  }

  /** The text names the address and the port: the part before its first colon and the number after it. */
  ghost predicate Names(target: string, address: string, port: int32) {
    var parts := Cut(target, ':');
    parts.Some? && parts.value.0 == address && ParseInt(parts.value.1) == Some(port)
  }

  lemma EndpointNames(address: string, port: int32)
    requires ':' !in address
    ensures Names(Endpoint(address, port), address, port)
  {
    assert Endpoint(address, port) == address + [':'] + FormatInt(port);
    CutAt(address, ':', FormatInt(port));
    ParseFormatted(port);
  }

  ghost predicate NoColons(addresses: seq<string>) {
    forall a :: a in addresses ==> ':' !in a
  }

  /** The targets of the operator are its containers' addresses in their order, each with the port of the
      service. */
  lemma {:induction false} TargetsInOrder(addresses: seq<string>, port: int32)
    requires NoColons(addresses)
    ensures var ips, given := TargetIPs(addresses, port), Given(addresses);
      |ips| == |given| && forall i :: 0 <= i < |ips| ==> Names(ips[i], given[i], port)
    ensures forall a :: a in Given(addresses) <==> a in addresses && a != ""
  {
    if addresses != [] {
      var k := |addresses| - 1;
      assert addresses == addresses[..k] + [addresses[k]];
      TargetsInOrder(addresses[..k], port);
      EndpointNames(addresses[k], port);
    }
  }

  ghost predicate NamesContainer(target: string, addresses: seq<string>, port: int32) {
    exists a :: a in addresses && a != "" && Names(target, a, port)
  }

  lemma TargetNames(addresses: seq<string>, port: int32, target: string)
    requires NoColons(addresses) && target in Sort(TargetIPs(addresses, port))
    ensures NamesContainer(target, addresses, port)
  {
    var ips := TargetIPs(addresses, port);
    SortHolds(ips, target);
    TargetsInOrder(addresses, port);
    var i :| 0 <= i < |ips| && ips[i] == target;
    var a := Given(addresses)[i];
    assert a in addresses && a != "" && Names(target, a, port);
  }

  /** The connection of ConnectionReachesContainer is dialled to the address of a container, at the port of
      the service. */
  lemma DialsAddressAndPort(addresses: seq<string>, port: int32, s: Server, file: Option<string>, now: int)
    requires Usable(addresses) && NoColons(addresses) && s.sessions != []
    requires exists a :: a in addresses && a != ""
    ensures var route := Dispatch(Reload(s, TargetsText(TargetIPs(addresses, port)), file, now)).1;
      route.Some? && NamesContainer(route.value.0, addresses, port)
  {
    ConnectionReachesContainer(addresses, port, s, file, now, "");
    var ips := TargetIPs(addresses, port);
    TargetNames(addresses, port, Sort(ips)[s.rrIndex % |Sort(ips)|]);
  }
}
