/** The tunnel server as the program it is: fields under a lock, changed by its handlers
    (internal/tunnel/server.go). Each method is one critical section, proved to be a step of TunnelModel. */
module TunnelServer {
  import opened Go
  import opened Text
  import M = TunnelModel

  /** The loop shared by the push and the file route: trim every part, drop what is left empty. */
  method KeepTargets(parts: seq<string>) returns (kept: seq<string>)
    ensures kept == Kept(parts)
  {
    kept := [];
    var i := 0;
    while i < |parts|
      invariant 0 <= i <= |parts|
      invariant kept + Kept(parts[i..]) == Kept(parts)
    {
      var value := TrimSpace(parts[i]);
      assert parts[i..][1..] == parts[i + 1..];
      assert Kept(parts[i..]) == (if value == "" then [] else [value]) + Kept(parts[i + 1..]);
      assert kept + ([value] + Kept(parts[i + 1..])) == (kept + [value]) + Kept(parts[i + 1..]);
      if value != "" {
        kept := kept + [value];
      }
      i := i + 1;
    }
  }

  method TargetsEqual(a: seq<string>, b: seq<string>) returns (equal: bool)
    ensures equal <==> a == b
  {
    if |a| != |b| {
      return false;
    }
    var i := 0;
    while i < |a|
      invariant 0 <= i <= |a|
      invariant a[..i] == b[..i]
    {
      if a[i] != b[i] {
        return false;
      }
      i := i + 1;
    }
    assert a == a[..i] && b == b[..i];
    return true;
  }

  /** The unlocked half of loadTargetsFromFile. */
  method ParseFile(data: string) returns (parsed: seq<string>)
    ensures parsed == Fields(TrimSpace(data)) == Fields(data)
  {
    FieldsTrimSpace(data);
    var content := TrimSpace(data);
    parsed := [];
    if content != "" {
      parsed := KeepTargets(Split(content));
    } else {
      assert Kept([""]) == Kept([""][1..]);
    }
  }

  class Server {
    var sessions: seq<nat>
    var targets: seq<string>
    var pushTargets: seq<string>
    var lastPushTime: Option<int>
    var rrIndex: nat

    function View(): M.Server
      reads this
    {
      M.Server(sessions, targets, pushTargets, lastPushTime, rrIndex)
    }

    constructor (targets: seq<string>)
      ensures View() == M.Server([], targets, [], None, 0)
    {
      this.targets := targets;
      sessions, pushTargets, lastPushTime, rrIndex := [], [], None, 0;
    }

    /** The locked part of handleTCP. */
    method SelectRoute() returns (route: Option<(string, nat)>)
      modifies this
      ensures (View(), route) == M.Dispatch(old(View()))
    {
      if |sessions| == 0 {
        return None;
      }
      if |targets| == 0 {
        return None;
      }
      var target := targets[rrIndex % |targets|];
      var session := sessions[rrIndex % |sessions|];
      rrIndex := (rrIndex + 1) % TWO_64;
      return Some((target, session));
    }

    method Register(session: nat) returns (count: nat)
      modifies this
      ensures View() == old(View()).(sessions := old(sessions) + [session]) && count == |sessions|
    {
      sessions := sessions + [session];
      count := |sessions|;
    }

    method Unregister(session: nat) returns (remaining: nat)
      modifies this
      ensures View() == old(View()).(sessions := M.Without(old(sessions), session)) && remaining == |sessions|
    {
      var i := 0;
      while i < |sessions|
        invariant 0 <= i <= |sessions| && View() == old(View())
        invariant M.Without(sessions, session) == sessions[..i] + M.Without(sessions[i..], session)
      {
        assert sessions[i..][1..] == sessions[i + 1..];
        if sessions[i] == session {
          sessions := sessions[..i] + sessions[i + 1..];
          break;
        }
        assert sessions[..i] + [sessions[i]] == sessions[..i + 1];
        i := i + 1;
      }
      remaining := |sessions|;
    }

    /** The locked half of loadTargetsFromFile. */
    method CommitTargets(newTargets: seq<string>, now: int)
      modifies this
      ensures View() == M.Commit(old(View()), newTargets, now)
    {
      if lastPushTime.Some? && now - lastPushTime.value < M.PUSH_WINDOW {
        var asPushed := TargetsEqual(newTargets, pushTargets);
        if !asPushed {
          return;
        }
      }
      var same := TargetsEqual(newTargets, targets);
      if same {
        return;
      }
      targets := newTargets;
    }

    /** A file that cannot be read changes nothing. */
    method LoadTargetsFromFile(data: Option<string>, now: int)
      modifies this
      ensures View() == M.Load(old(View()), data, now)
    {
      if data.None? {
        return;
      }
      var newTargets := ParseFile(data.value);
      CommitTargets(newTargets, now);
    }

    /** A POST with targets is a push; one without makes the server look at its file. */
    method HandleReload(post: bool, query: string, data: Option<string>, now: int) returns (code: nat)
      modifies this
      ensures !post ==> View() == old(View()) && code == 405
      ensures post ==> View() == M.Reload(old(View()), query, data, now) && code == 200
    {
      if !post {
        return 405;
      }
      if query != "" {
        var newTargets := KeepTargets(Split(query));
        targets, pushTargets, lastPushTime := newTargets, newTargets, Some(now);
      } else {
        LoadTargetsFromFile(data, now);
      }
      return 200;
    }
  }
}
