/** The string functions of Go's standard library that the sources call, on ASCII text. */
module Text {
  import opened Go

  // ---- Numbers ----

  predicate IsDigit(c: char) {
    '0' <= c <= '9'
  }

  function Digit(n: nat): (c: char)
    requires n < 10
    ensures IsDigit(c)
  {
    '0' + n as char
  }

  function DigitValue(c: char): (n: nat)
    requires IsDigit(c)
    ensures n < 10 && Digit(n) == c
  {
    (c - '0') as nat
  }

  predicate AllDigits(s: string) {
    forall i :: 0 <= i < |s| ==> IsDigit(s[i])
  }

  function NatText(n: nat): (s: string)
    ensures s != [] && AllDigits(s)
  {
    if n < 10 then [Digit(n)] else NatText(n / 10) + [Digit(n % 10)]
  }

  function NatValue(s: string): nat
    requires AllDigits(s)
  {
    if s == [] then 0 else NatValue(s[..|s| - 1]) * 10 + DigitValue(s[|s| - 1])
  }

  lemma {:induction false} NatRoundTrip(n: nat)
    ensures NatValue(NatText(n)) == n
  {
    if n >= 10 {
      NatRoundTrip(n / 10);
      var s := NatText(n);
      assert s[..|s| - 1] == NatText(n / 10);
      assert DigitValue(Digit(n % 10)) == n % 10;
    } else {
      var s := NatText(n);
      assert s[..|s| - 1] == [];
      assert NatValue([]) == 0;
      assert DigitValue(Digit(n)) == n;
    }
  }

  /** strconv.FormatInt in base 10. */
  function FormatInt(n: int): (s: string)
    ensures s != []
  {
    if n < 0 then "-" + NatText(-n) else NatText(n)
  }

  /** strconv.ParseInt in base 10 with 64 bits: None on a syntax or range error. */
  function ParseInt(s: string): Option<int64> {
    if s == "" then None
    else
      var digits := if s[0] == '-' || s[0] == '+' then s[1..] else s;
      if digits == "" || !AllDigits(digits) then None
      else
        var v: int := NatValue(digits);
        var n := if s[0] == '-' then -v else v;
        if -TWO_63 <= n < TWO_63 then Some(n) else None
  }

  lemma ParseFormatted(n: int64)
    ensures ParseInt(FormatInt(n)) == Some(n)
  {
    var m: int := n;
    var s := FormatInt(m);
    if m < 0 {
      NatRoundTrip(-m);
      assert s[1..] == NatText(-m);
    } else {
      NatRoundTrip(m);
      assert IsDigit(s[0]);
    }
  }

  // ---- Case and blanks ----

  function LowerChar(c: char): char {
    if 'A' <= c <= 'Z' then c - 'A' + 'a' else c
  }

  function ToLower(s: string): (r: string)
    ensures |r| == |s| && forall i :: 0 <= i < |s| ==> r[i] == LowerChar(s[i])
  {
    seq(|s|, i requires 0 <= i < |s| => LowerChar(s[i]))
  }

  predicate EqualFold(a: string, b: string) {
    ToLower(a) == ToLower(b)
  }

  predicate IsSpace(c: char) {
    c == ' ' || c == '\t' || c == '\n' || c == '\r' || c == 11 as char || c == 12 as char
  }

  function TrimLeft(s: string): string {
    if s != [] && IsSpace(s[0]) then TrimLeft(s[1..]) else s
  }

  function TrimRight(s: string): string {
    if s != [] && IsSpace(s[|s| - 1]) then TrimRight(s[..|s| - 1]) else s
  }

  function TrimSpace(s: string): string {
    TrimRight(TrimLeft(s))
  }

  /** Neither end of the text is a blank. */
  predicate Tight(s: string) {
    s != [] ==> !IsSpace(s[0]) && !IsSpace(s[|s| - 1])
  }

  lemma TrimTight(s: string)
    requires Tight(s)
    ensures TrimSpace(s) == s
  {
  }

  lemma {:induction false} TrimLeftSnoc(s: string, c: char)
    requires IsSpace(c)
    ensures TrimLeft(s + [c]) == if TrimLeft(s) == [] then [] else TrimLeft(s) + [c]
  {
    if s == [] {
      assert s + [c] == [c];
      assert TrimLeft([c]) == TrimLeft([c][1..]);
    } else if IsSpace(s[0]) {
      assert (s + [c])[1..] == s[1..] + [c];
      TrimLeftSnoc(s[1..], c);
    }
  }

  /** A blank at either end does not matter. */
  lemma TrimIgnoresBlanks(s: string, c: char)
    requires IsSpace(c)
    ensures TrimSpace([c] + s) == TrimSpace(s) && TrimSpace(s + [c]) == TrimSpace(s)
  {
    assert ([c] + s)[1..] == s;
    TrimLeftSnoc(s, c);
    var t := TrimLeft(s);
    if t != [] {
      assert (t + [c])[..|t|] == t;
    }
  }

  // ---- Separators ----

  /** strings.Cut at the first separator. */
  function Cut(s: string, sep: char): Option<(string, string)> {
    if s == [] then None
    else if s[0] == sep then Some(([], s[1..]))
    else
      var rest := Cut(s[1..], sep);
      if rest.None? then None else Some(([s[0]] + rest.value.0, rest.value.1))
  }

  lemma {:induction false} CutAt(a: string, sep: char, b: string)
    requires sep !in a
    ensures Cut(a + [sep] + b, sep) == Some((a, b))
  {
    var s := a + [sep] + b;
    if a == [] {
      assert s[1..] == b;
    } else {
      assert s[1..] == a[1..] + [sep] + b;
      CutAt(a[1..], sep, b);
      assert [a[0]] + a[1..] == a;
    }
  }

  lemma {:induction false} CutNone(a: string, sep: char)
    requires sep !in a
    ensures Cut(a, sep) == None
  {
    if a != [] {
      CutNone(a[1..], sep);
    }
  }

  // ---- Comma-separated lists ----

  /** strings.Split on commas. */
  function Split(s: string): (parts: seq<string>)
    ensures parts != []
  {
    if s == [] then [[]]
    else
      var rest := Split(s[1..]);
      if s[0] == ',' then [[]] + rest else [[s[0]] + rest[0]] + rest[1..]
  }

  /** strings.Join with commas. */
  function Join(parts: seq<string>): string {
    if |parts| == 0 then ""
    else if |parts| == 1 then parts[0]
    else parts[0] + "," + Join(parts[1..])
  }

  /** What the tunnel server keeps of the parts: trimmed, without the empty ones. */
  function Kept(parts: seq<string>): seq<string> {
    if parts == [] then []
    else
      var t := TrimSpace(parts[0]);
      (if t == "" then [] else [t]) + Kept(parts[1..])
  }

  function Fields(s: string): seq<string> {
    Kept(Split(s))
  }

  /** The parts after one more character at the end of the last one. */
  function Snoc(parts: seq<string>, c: char): (r: seq<string>)
    requires parts != []
    ensures r != []
  {
    var k := |parts| - 1;
    parts[..k] + [parts[k] + [c]]
  }

  lemma SnocAfter(first: seq<string>, rest: seq<string>, c: char)
    requires rest != []
    ensures Snoc(first + rest, c) == first + Snoc(rest, c)
  {
    var k := |rest| - 1;
    assert (first + rest)[..|first| + k] == first + rest[..k];
    assert (first + rest[..k]) + [rest[k] + [c]] == first + (rest[..k] + [rest[k] + [c]]);
  }

  lemma {:induction false} SplitSnoc(s: string, c: char)
    requires c != ','
    ensures Split(s + [c]) == Snoc(Split(s), c)
  {
    if s == [] {
      assert s + [c] == [c] && [c][1..] == [];
      assert [c] + Split([])[0] == [c];
      assert Split([c]) == [[c]] && Snoc([[]], c) == [[c]];
    } else {
      SplitSnoc(s[1..], c);
      assert (s + [c])[1..] == s[1..] + [c];
      var rest := Split(s[1..]);
      if s[0] == ',' {
        SnocAfter([[]], rest, c);
      } else if |rest| == 1 {
        assert [s[0]] + (rest[0] + [c]) == ([s[0]] + rest[0]) + [c];
        assert Snoc(rest, c) == [rest[0] + [c]];
        assert Snoc([[s[0]] + rest[0]], c) == [[s[0]] + rest[0] + [c]];
      } else {
        SnocAfter([rest[0]], rest[1..], c);
        assert rest == [rest[0]] + rest[1..];
        assert Snoc(rest, c)[0] == rest[0] && Snoc(rest, c)[1..] == Snoc(rest[1..], c);
        SnocAfter([[s[0]] + rest[0]], rest[1..], c);
      }
    }
  }

  lemma {:induction false} KeptAppend(a: seq<string>, b: seq<string>)
    ensures Kept(a + b) == Kept(a) + Kept(b)
  {
    if a == [] {
      assert a + b == b;
    } else {
      assert (a + b)[1..] == a[1..] + b;
      KeptAppend(a[1..], b);
    }
  }

  lemma FieldsIgnoreBlanks(s: string, c: char)
    requires IsSpace(c)
    ensures Fields([c] + s) == Fields(s) && Fields(s + [c]) == Fields(s)
  {
    var parts := Split(s);
    assert ([c] + s)[1..] == s;
    assert Split([c] + s) == [[c] + parts[0]] + parts[1..];
    TrimIgnoresBlanks(parts[0], c);
    assert ([[c] + parts[0]] + parts[1..])[1..] == parts[1..];
    assert Fields([c] + s) == Fields(s);

    SplitSnoc(s, c);
    var k := |parts| - 1;
    assert Split(s + [c]) == parts[..k] + [parts[k] + [c]];
    TrimIgnoresBlanks(parts[k], c);
    KeptAppend(parts[..k], [parts[k] + [c]]);
    KeptAppend(parts[..k], [parts[k]]);
    assert parts == parts[..k] + [parts[k]];
  }

  lemma {:induction false} FieldsTrimLeft(s: string)
    ensures Fields(TrimLeft(s)) == Fields(s)
  {
    if s != [] && IsSpace(s[0]) {
      assert s == [s[0]] + s[1..];
      FieldsIgnoreBlanks(s[1..], s[0]);
      FieldsTrimLeft(s[1..]);
    }
  }

  lemma {:induction false} FieldsTrimRight(s: string)
    ensures Fields(TrimRight(s)) == Fields(s)
  {
    if s != [] && IsSpace(s[|s| - 1]) {
      assert s == s[..|s| - 1] + [s[|s| - 1]];
      FieldsIgnoreBlanks(s[..|s| - 1], s[|s| - 1]);
      FieldsTrimRight(s[..|s| - 1]);
    }
  }

  /** Trimming the whole text first changes nothing, for any text at all. */
  lemma FieldsTrimSpace(s: string)
    ensures Fields(TrimSpace(s)) == Fields(s)
  {
    FieldsTrimLeft(s);
    FieldsTrimRight(TrimLeft(s));
  }

  /** A text that survives being an entry of a comma-separated list. */
  predicate IsEntry(s: string) {
    s != "" && ',' !in s && Tight(s)
  }

  lemma {:induction false} SplitEntry(e: string, s: string)
    requires ',' !in e
    ensures Split(e) == [e]
    ensures Split(e + "," + s) == [e] + Split(s)
  {
    var t := e + "," + s;
    if e == [] {
      assert t == "," + s;
      assert t[1..] == s;
    } else {
      SplitEntry(e[1..], s);
      assert t[1..] == e[1..] + "," + s;
      assert [e[0]] + e[1..] == e;
      assert ([e[1..]] + Split(s))[1..] == Split(s);
    }
  }

  /** Splitting a joined list of entries gives the list back. */
  lemma {:induction false} FieldsOfJoin(entries: seq<string>)
    requires forall i :: 0 <= i < |entries| ==> IsEntry(entries[i])
    ensures Fields(Join(entries)) == entries
  {
    if |entries| == 0 {
      assert Split("") == [""];
      assert Kept([""]) == [] + Kept([""][1..]);
    } else if |entries| == 1 {
      SplitEntry(entries[0], "");
      TrimTight(entries[0]);
      assert Kept([entries[0]]) == [entries[0]] + Kept([entries[0]][1..]);
    } else {
      SplitEntry(entries[0], Join(entries[1..]));
      TrimTight(entries[0]);
      FieldsOfJoin(entries[1..]);
      var parts := [entries[0]] + Split(Join(entries[1..]));
      assert parts[1..] == Split(Join(entries[1..]));
    }
  }

  // ---- Order ----

  /** The order of Go strings, byte by byte. */
  predicate LexLe(a: string, b: string) {
    a == [] || (b != [] && (a[0] < b[0] || (a[0] == b[0] && LexLe(a[1..], b[1..]))))
  }

  lemma LexTotal(a: string, b: string)
    ensures LexLe(a, b) || LexLe(b, a)
  {
  }

  lemma {:induction false} LexAntisymmetric(a: string, b: string)
    requires LexLe(a, b) && LexLe(b, a)
    ensures a == b
  {
    if a != [] {
      LexAntisymmetric(a[1..], b[1..]);
      assert a == [a[0]] + a[1..] && b == [b[0]] + b[1..];
    }
  }

  lemma LexTransitive(a: string, b: string, c: string)
    requires LexLe(a, b) && LexLe(b, c)
    ensures LexLe(a, c)
  {
  }

  ghost predicate Sorted(s: seq<string>) {
    forall i, j :: 0 <= i < j < |s| ==> LexLe(s[i], s[j])
  }

  lemma SortedCons(x: string, s: seq<string>)
    requires Sorted(s) && (s != [] ==> LexLe(x, s[0]))
    ensures Sorted([x] + s)
  {
    forall j | 0 <= j < |s| ensures LexLe(x, s[j]) {
      if j > 0 {
        LexTransitive(x, s[0], s[j]);
      }
    }
  }

  /** What a list holds is its head and what its tail holds. */
  lemma MultisetCons(s: seq<string>)
    requires s != []
    ensures multiset(s) == multiset{s[0]} + multiset(s[1..])
  {
    assert s == [s[0]] + s[1..];
  }

  function Insert(x: string, s: seq<string>): (r: seq<string>)
    requires Sorted(s)
    ensures Sorted(r) && multiset(r) == multiset(s) + multiset{x}
    ensures r != [] && (r[0] == x || (s != [] && r[0] == s[0]))
  {
    if s == [] then [x]
    else if LexLe(x, s[0]) then
      SortedCons(x, s);
      [x] + s
    else
      LexTotal(x, s[0]);
      MultisetCons(s);
      var rest := Insert(x, s[1..]);
      SortedCons(s[0], rest);
      [s[0]] + rest
  }

  /** sort.Strings. */
  function Sort(s: seq<string>): (r: seq<string>)
    ensures Sorted(r) && multiset(r) == multiset(s)
  {
    if s == [] then [] else
      MultisetCons(s);
      Insert(s[0], Sort(s[1..]))
  }

  lemma SortHolds(s: seq<string>, x: string)
    ensures x in Sort(s) <==> x in s
  {
    assert x in multiset(Sort(s)) <==> x in multiset(s);
  }

  lemma HeadIsLeast(s: seq<string>, x: string)
    requires Sorted(s) && x in s
    ensures LexLe(s[0], x)
  {
    LexTotal(x, x);
  }

  lemma SameHead(a: seq<string>, b: seq<string>)
    requires Sorted(a) && Sorted(b) && multiset(a) == multiset(b) && a != [] && b != []
    ensures a[0] == b[0]
  {
    assert b[0] in multiset(a) && a[0] in multiset(b);
    HeadIsLeast(a, b[0]);
    HeadIsLeast(b, a[0]);
    LexAntisymmetric(a[0], b[0]);
  }

  /** A list has only one sorted arrangement. */
  lemma {:induction false} SortedUnique(a: seq<string>, b: seq<string>)
    requires Sorted(a) && Sorted(b) && multiset(a) == multiset(b)
    ensures a == b
  {
    if a == [] {
      assert |multiset(b)| == 0;
    } else {
      assert |multiset(b)| == |multiset(a)|;
      SameHead(a, b);
      MultisetCons(a);
      MultisetCons(b);
      assert multiset(a[1..]) == multiset(a) - multiset{a[0]};
      assert multiset(b[1..]) == multiset(b) - multiset{a[0]};
      SortedUnique(a[1..], b[1..]);
      assert a == [a[0]] + a[1..] && b == [b[0]] + b[1..];
    }
  }

  /** Sorting forgets the order it was given. */
  lemma SortCanonical(a: seq<string>, b: seq<string>)
    requires multiset(a) == multiset(b)
    ensures Sort(a) == Sort(b)
  {
    SortedUnique(Sort(a), Sort(b));
  }
}
