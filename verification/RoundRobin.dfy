/** One 64-bit counter that picks both a target and a session (internal/tunnel/server.go). */
module RoundRobin {
  import opened Go
  import opened Arithmetic

  /** The counter at the i-th connection from now; it wraps around. */
  function Counter(r: nat, i: nat): (k: nat)
    ensures k < TWO_64
    ensures r + i < TWO_64 ==> k == r + i
  {
    (r + i) % TWO_64
  }

  /** Which target and which session a connection gets, by index. */
  function Pick(k: nat, targets: nat, sessions: nat): (p: (nat, nat))
    requires targets > 0 && sessions > 0
    ensures p.0 < targets && p.1 < sessions
  {
    (k % targets, k % sessions)
  }

  /** Which of the next n connections use this pair. */
  ghost function Turns(r: nat, n: nat, targets: nat, sessions: nat, pair: (nat, nat)): set<nat>
    requires targets > 0 && sessions > 0
  {
    set i: nat | i < n && Pick(Counter(r, i), targets, sessions) == pair
  }

  ghost predicate Reachable(targets: nat, sessions: nat, pair: (nat, nat))
    requires targets > 0
  {
    pair.0 < targets && pair.1 < sessions && pair.0 % Gcd(targets, sessions) == pair.1 % Gcd(targets, sessions)
  }

  /** The next lcm connections use every reachable pair exactly once, and no other pair. */
  ghost predicate Fair(r: nat, targets: nat, sessions: nat)
    requires targets > 0 && sessions > 0
  {
    forall pair :: |Turns(r, Lcm(targets, sessions), targets, sessions, pair)| ==
                   if Reachable(targets, sessions, pair) then 1 else 0
  }

  /** The wrap-around is not felt by the next n connections. */
  ghost predicate Seamless(r: nat, n: nat, targets: nat, sessions: nat)
    requires targets > 0 && sessions > 0
  {
    forall i: nat :: i < n ==>
      Counter(r, i) % targets == (r + i) % targets && Counter(r, i) % sessions == (r + i) % sessions
  }

  /** A pair has one turn at most among lcm connections. */
  lemma OneTurnAtMost(r: nat, targets: nat, sessions: nat, pair: (nat, nat), i: nat, j: nat)
    requires targets > 0 && sessions > 0
    ensures var n := Lcm(targets, sessions);
      (&& Seamless(r, n, targets, sessions)
       && i in Turns(r, n, targets, sessions, pair)
       && j in Turns(r, n, targets, sessions, pair)) ==> i == j
  {
    var n := Lcm(targets, sessions);
    if i < n && j < n && (r + i) % targets == (r + j) % targets && (r + i) % sessions == (r + j) % sessions {
      SameRemainder(r + i, r + j, targets);
      SameRemainder(r + i, r + j, sessions);
      LcmIsLeast(targets, sessions, i - j);
      assert (r + i) - (r + j) == i - j;
      var k := DividesIsMultiple(n, i - j);
      SmallMultiple(k, n);
    }
  }

  lemma ReachableHasTurn(r: nat, targets: nat, sessions: nat, pair: (nat, nat)) returns (i: nat)
    requires targets > 0 && sessions > 0 && Reachable(targets, sessions, pair)
    requires Seamless(r, Lcm(targets, sessions), targets, sessions)
    ensures i in Turns(r, Lcm(targets, sessions), targets, sessions, pair)
  {
    var n := Lcm(targets, sessions);
    var solution := CommonSolution(targets, sessions, pair.0, pair.1);
    i := (solution - r) % n;
    QuotientAndRemainder(solution - r, n);
    MultipleDivides(n, solution - (r + i), (solution - r) / n);
    LcmIsLeast(targets, sessions, solution - (r + i));
    SameRemainder(solution, r + i, targets);
    SameRemainder(solution, r + i, sessions);
  }

  lemma SeamlessIsFair(r: nat, targets: nat, sessions: nat)
    requires targets > 0 && sessions > 0 && Seamless(r, Lcm(targets, sessions), targets, sessions)
    ensures Fair(r, targets, sessions)
  {
    var n := Lcm(targets, sessions);
    forall pair: (nat, nat)
      ensures |Turns(r, n, targets, sessions, pair)| == if Reachable(targets, sessions, pair) then 1 else 0
    {
      var turns := Turns(r, n, targets, sessions, pair);
      if Reachable(targets, sessions, pair) {
        var i := ReachableHasTurn(r, targets, sessions, pair);
        forall j | j in turns ensures j == i {
          OneTurnAtMost(r, targets, sessions, pair, i, j);
        }
        assert turns == {i};
      } else {
        forall i | i in turns ensures false {
          SolutionsAgree(targets, sessions, Counter(r, i));
        }
        assert turns == {};
      }
    }
  }

  /** As long as the counter does not wrap, every window of lcm connections is fair. */
  lemma FairBeforeWrap(r: nat, targets: nat, sessions: nat)
    requires targets > 0 && sessions > 0 && r + Lcm(targets, sessions) <= TWO_64
    ensures Fair(r, targets, sessions)
  {
    SeamlessIsFair(r, targets, sessions);
  }

  lemma DividesMultiple(d: int, n: int, q: int)
    requires d > 0 && Divides(d, n)
    ensures Divides(d, q * n)
  {
    var k := DividesIsMultiple(d, n);
    Assoc(q, k, d);
    MultipleDivides(d, q * n, q * k);
  }

  lemma WrapIsSeamless(r: nat, n: nat, targets: nat, sessions: nat)
    requires targets > 0 && sessions > 0 && Divides(targets, TWO_64) && Divides(sessions, TWO_64)
    ensures Seamless(r, n, targets, sessions)
  {
    forall i: nat | i < n
      ensures Counter(r, i) % targets == (r + i) % targets && Counter(r, i) % sessions == (r + i) % sessions
    {
      var q := (r + i) / TWO_64;
      DividesMultiple(targets, TWO_64, q);
      DividesMultiple(sessions, TWO_64, q);
      assert (r + i) - Counter(r, i) == q * TWO_64;
      SameRemainder(r + i, Counter(r, i), targets);
      SameRemainder(r + i, Counter(r, i), sessions);
    }
  }

  /** The window that ends with the first connection after the wrap gives one pair a second turn. */
  lemma UnfairAtWrap(targets: nat, sessions: nat)
    requires targets > 0 && sessions > 0 && Lcm(targets, sessions) <= TWO_64
    requires !Divides(Lcm(targets, sessions), TWO_64)
    ensures !Fair(TWO_64 - Lcm(targets, sessions) + 1, targets, sessions)
  {
    LcmDivides(targets, sessions);
    var n := Lcm(targets, sessions);
    var r := TWO_64 - n + 1;
    var last := TWO_64 - TWO_64 % n;
    QuotientAndRemainder(TWO_64, n);
    MultipleDivides(n, last, TWO_64 / n);
    LcmIsLeast(targets, sessions, last);
    var turns := Turns(r, n, targets, sessions, (0, 0));
    assert Counter(r, n - 1) == 0;
    assert Counter(r, last - r) == last;
    assert {last - r, n - 1} <= turns;
    assert turns == {last - r, n - 1} + (turns - {last - r, n - 1});
    assert |{last - r, n - 1}| == 2;
    assert Reachable(targets, sessions, (0, 0));
  }

  /** Every window is fair, wherever the counter stands, exactly if lcm divides the counter's range. */
  lemma AlwaysFairExactly(targets: nat, sessions: nat)
    requires targets > 0 && sessions > 0 && Lcm(targets, sessions) <= TWO_64
    ensures (forall r: nat :: r < TWO_64 ==> Fair(r, targets, sessions)) <==> Divides(Lcm(targets, sessions), TWO_64)
  {
    LcmDivides(targets, sessions);
    if Divides(Lcm(targets, sessions), TWO_64) {
      LcmIsLeast(targets, sessions, TWO_64);
      forall r: nat | r < TWO_64 ensures Fair(r, targets, sessions) {
        WrapIsSeamless(r, Lcm(targets, sessions), targets, sessions);
        SeamlessIsFair(r, targets, sessions);
      }
    } else {
      UnfairAtWrap(targets, sessions);
      var r: nat := TWO_64 - Lcm(targets, sessions) + 1;
      if r == TWO_64 {
        MulMod(TWO_64, 1);
      }
    }
  }

  // ---- Targets alone ----

  ghost function TargetTurns(r: nat, n: nat, targets: nat, t: nat): set<nat>
    requires targets > 0
  {
    set i: nat | i < n && Counter(r, i) % targets == t
  }

  /** Exactly one number of every stretch as long as d has a given remainder. */
  lemma OneInStretch(low: int, d: int, t: int) returns (x: int)
    requires d > 0 && 0 <= t < d
    ensures low <= x < low + d && x % d == t
    ensures forall y :: low <= y < low + d && y % d == t ==> y == x
  {
    x := low + (t - low) % d;
    QuotientAndRemainder(t - low, d);
    MultipleDivides(d, t - x, (t - low) / d);
    SameRemainder(t, x, d);
    ModIsUnique(t, 0, t, d);
    forall y | low <= y < low + d && y % d == t ensures y == x {
      SameRemainder(x, y, d);
      var k := DividesIsMultiple(d, x - y);
      SmallMultiple(k, d);
    }
  }

  lemma {:induction false} EqualShares(r: nat, m: nat, targets: nat, t: nat)
    requires targets > 0 && t < targets && r + m * targets <= TWO_64
    ensures |TargetTurns(r, m * targets, targets, t)| == m
  {
    if m == 0 {
      assert TargetTurns(r, 0, targets, t) == {};
    } else {
      Spread(m - 1, 1, targets);
      var n := (m - 1) * targets;
      EqualShares(r, m - 1, targets, t);
      var x := OneInStretch(r + n, targets, t);
      var before, now := TargetTurns(r, n, targets, t), TargetTurns(r, m * targets, targets, t);
      forall i | i in now ensures i in before + {x - r} {
        if i >= n {
          assert (r + i) % targets == t;
        }
      }
      assert x - r in now;
      assert now == before + {x - r};
    }
  }

  /** Among lcm connections every target is chosen exactly lcm / targets times. */
  lemma TargetsShareEqually(r: nat, targets: nat, sessions: nat, t: nat)
    requires targets > 0 && sessions > 0 && t < targets && r + Lcm(targets, sessions) <= TWO_64
    ensures |TargetTurns(r, Lcm(targets, sessions), targets, t)| == Lcm(targets, sessions) / targets
  {
    LcmDivides(targets, sessions);
    var m := Lcm(targets, sessions) / targets;
    QuotientAndRemainder(Lcm(targets, sessions), targets);
    EqualShares(r, m, targets, t);
  }
}
