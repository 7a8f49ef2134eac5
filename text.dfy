/**
 * String helpers that the code generator relies on, with Rust's meaning:
 * `"    ".repeat(n)`, `str::split`, `str::lines`, `[..].join(sep)`, `str::trim`,
 * and the decimal rendering of `{}` for unsigned integers.
 */
module Text {

  /** `"    ".repeat(n)`: four spaces per indentation level. */
  function Spaces(n: nat): (s: string)
    ensures |s| == 4 * n
  {
    if n == 0 then "" else "    " + Spaces(n - 1)
  }

  lemma {:induction false} SpacesOnly(n: nat)
    ensures forall i :: 0 <= i < |Spaces(n)| ==> Spaces(n)[i] == ' '
    ensures '\n' !in Spaces(n)
  {
    if n > 0 {
      SpacesOnly(n - 1);
      assert Spaces(n) == "    " + Spaces(n - 1);
    }
  }

  lemma SpacesPrefix(k: nat, n: nat)
    requires n <= k
    ensures Spaces(k)[..4 * n] == Spaces(n)
  {
    assert |Spaces(k)[..4 * n]| == |Spaces(n)|;
    forall i | 0 <= i < 4 * n ensures Spaces(k)[..4 * n][i] == Spaces(n)[i] { }
  }

  predicate EndsWithNewline(s: string) {
    |s| > 0 && s[|s| - 1] == '\n'
  }

  lemma AppendAssoc(a: string, b: string, c: string)
    ensures a + b + c == a + (b + c)
  {
  }

  /** Position of the first `c` in `s`, or `|s|` when there is none. */
  function IndexOf(s: string, c: char): (i: nat)
    ensures i <= |s|
    ensures i < |s| ==> s[i] == c
    ensures c !in s[..i]
  {
    if s == "" then 0
    else if s[0] == c then 0
    else
      var j := IndexOf(s[1..], c);
      assert s[..j + 1] == [s[0]] + s[1..][..j];
      1 + j
  }

  lemma IndexOfAbsent(s: string, c: char)
    requires IndexOf(s, c) == |s|
    ensures c !in s
  {
    assert s[..|s|] == s;
  }

  lemma {:induction false} IndexOfAfter(a: string, c: char, b: string)
    requires c !in a
    ensures IndexOf(a + [c] + b, c) == |a|
  {
    if a != "" {
      assert (a + [c] + b)[1..] == a[1..] + [c] + b;
      IndexOfAfter(a[1..], c, b);
    }
  }

  /** Number of occurrences of `c` in `s`. */
  function Count(s: string, c: char): nat {
    if s == "" then 0 else (if s[0] == c then 1 else 0) + Count(s[1..], c)
  }

  lemma {:induction false} CountAppend(a: string, b: string, c: char)
    ensures Count(a + b, c) == Count(a, c) + Count(b, c)
  {
    if a == "" {
      assert a + b == b;
    } else {
      assert (a + b)[1..] == a[1..] + b;
      CountAppend(a[1..], b, c);
    }
  }

  lemma {:induction false} CountAbsent(s: string, c: char)
    requires c !in s
    ensures Count(s, c) == 0
  {
    if s != "" {
      CountAbsent(s[1..], c);
    }
  }

  /** `s.split(c)`: the pieces between occurrences of `c`, always at least one. */
  function Split(s: string, c: char): (ps: seq<string>)
    ensures |ps| == Count(s, c) + 1
    ensures forall p <- ps :: c !in p
    decreases |s|
  {
    var i := IndexOf(s, c);
    if i == |s| then
      IndexOfAbsent(s, c);
      CountAbsent(s, c);
      [s]
    else
      assert s == s[..i] + [c] + s[i + 1..];
      CountAppend(s[..i] + [c], s[i + 1..], c);
      CountAppend(s[..i], [c], c);
      assert c !in s[..i];
      CountAbsent(s[..i], c);
      [s[..i]] + Split(s[i + 1..], c)
  }

  lemma SplitCons(a: string, c: char, b: string)
    requires c !in a
    ensures Split(a + [c] + b, c) == [a] + Split(b, c)
  {
    IndexOfAfter(a, c, b);
    var s := a + [c] + b;
    assert s[..|a|] == a;
    assert s[|a| + 1..] == b;
  }

  lemma SplitSingle(a: string, c: char)
    requires c !in a
    ensures Split(a, c) == [a]
  {
    IndexOfNone(a, c);
  }

  lemma {:induction false} IndexOfNone(s: string, c: char)
    requires c !in s
    ensures IndexOf(s, c) == |s|
  {
    if s != "" {
      assert s[0] in s;
      assert forall x <- s[1..] :: x in s;
      IndexOfNone(s[1..], c);
    }
  }

  /** `[..].join(sep)`. */
  function Join(xs: seq<string>, sep: string): string {
    if |xs| == 0 then "" else if |xs| == 1 then xs[0] else xs[0] + sep + Join(xs[1..], sep)
  }

  /** A join ends with its last piece. */
  lemma {:induction false} JoinSuffix(xs: seq<string>, sep: string)
    requires |xs| > 0
    ensures var j := Join(xs, sep); var last := xs[|xs| - 1];
      |last| <= |j| && j[|j| - |last|..] == last
  {
    if |xs| > 1 {
      JoinSuffix(xs[1..], sep);
      var j := Join(xs[1..], sep);
      var last := xs[|xs| - 1];
      assert Join(xs, sep) == (xs[0] + sep) + j;
      assert ((xs[0] + sep) + j)[|(xs[0] + sep) + j| - |last|..] == j[|j| - |last|..];
    }
  }

  /** Joining the pieces of a split with the separator gives the text back. */
  lemma {:induction false} JoinSplit(s: string, c: char)
    ensures Join(Split(s, c), [c]) == s
    decreases |s|
  {
    var i := IndexOf(s, c);
    if i < |s| {
      assert s == s[..i] + [c] + s[i + 1..];
      assert c !in s[..i];
      SplitCons(s[..i], c, s[i + 1..]);
      JoinSplit(s[i + 1..], c);
    }
  }

  /** Splitting a join of separator-free pieces gives the pieces back. */
  lemma {:induction false} SplitJoin(xs: seq<string>, c: char)
    requires |xs| > 0
    requires forall x <- xs :: c !in x
    ensures Split(Join(xs, [c]), c) == xs
  {
    if |xs| == 1 {
      SplitSingle(xs[0], c);
    } else {
      var rest := Join(xs[1..], [c]);
      assert c !in xs[0] by {
        assert xs[0] in xs;
      }
      assert forall x <- xs[1..] :: c !in x by {
        assert forall x <- xs[1..] :: x in xs;
      }
      SplitJoin(xs[1..], c);
      calc {
        Split(Join(xs, [c]), c);
        { assert Join(xs, [c]) == xs[0] + [c] + rest; }
        Split(xs[0] + [c] + rest, c);
        { SplitCons(xs[0], c, rest); }
        [xs[0]] + xs[1..];
        { assert [xs[0]] + xs[1..] == xs; }
        xs;
      }
    }
  }

  /** `s.lines()` (lines ended by `'\n'`; a final line terminator adds no empty line). */
  function Lines(s: string): (ls: seq<string>)
    ensures forall l <- ls :: '\n' !in l
    decreases |s|
  {
    if s == "" then []
    else
      var i := IndexOf(s, '\n');
      if i == |s| then IndexOfAbsent(s, '\n'); [s]
      else
        assert '\n' !in s[..i];
        [s[..i]] + Lines(s[i + 1..])
  }

  lemma LinesEmpty()
    ensures Lines("") == []
  {
  }

  lemma LinesCons(a: string, b: string)
    requires '\n' !in a
    ensures Lines(a + "\n" + b) == [a] + Lines(b)
  {
    IndexOfAfter(a, '\n', b);
    var s := a + "\n" + b;
    assert s[..|a|] == a;
    assert s[|a| + 1..] == b;
  }

  lemma LinesSingle(a: string)
    requires '\n' !in a && a != ""
    ensures Lines(a) == [a]
  {
    IndexOfNone(a, '\n');
  }

  lemma {:induction false} LinesAppend(a: string, b: string)
    requires a == "" || EndsWithNewline(a)
    ensures Lines(a + b) == Lines(a) + Lines(b)
    decreases |a|
  {
    if a == "" {
      LinesEmpty();
      assert a + b == b;
    } else {
      var x, rest := Decompose(a);
      calc {
        Lines(a + b);
        { LineRegroup(x, rest, b); }
        Lines(x + "\n" + (rest + b));
        { LinesCons(x, rest + b); }
        [x] + Lines(rest + b);
        { LinesAppend(rest, b); }
        [x] + (Lines(rest) + Lines(b));
        { LinesCons(x, rest); }
        Lines(a) + Lines(b);
      }
    }
  }

  lemma Decompose(a: string) returns (x: string, rest: string)
    requires EndsWithNewline(a)
    ensures a == x + "\n" + rest && '\n' !in x && |rest| < |a|
    ensures rest == "" || EndsWithNewline(rest)
  {
    var i := IndexOf(a, '\n');
    assert a[|a| - 1] == '\n';
    assert i < |a|;
    x, rest := a[..i], a[i + 1..];
    assert a[..i] + [a[i]] + a[i + 1..] == a;
    assert rest != "" ==> rest[|rest| - 1] == a[|a| - 1];
  }

  /** Each line followed by its terminator. */
  function Unlines(ls: seq<string>): string {
    if ls == [] then "" else ls[0] + "\n" + Unlines(ls[1..])
  }

  /** Lines of terminated newline-free lines are those lines. */
  lemma {:induction false} LinesUnlines(ls: seq<string>)
    requires forall l <- ls :: '\n' !in l
    ensures Lines(Unlines(ls)) == ls
  {
    if ls == [] {
      LinesEmpty();
    } else {
      assert ls[0] in ls;
      assert forall l <- ls[1..] :: l in ls;
      LinesCons(ls[0], Unlines(ls[1..]));
      LinesUnlines(ls[1..]);
    }
  }

  lemma {:induction false} UnlinesEmpty(ls: seq<string>)
    ensures Unlines(ls) == "" <==> ls == []
    ensures ls != [] ==> EndsWithNewline(Unlines(ls))
  {
    if ls != [] {
      UnlinesEmpty(ls[1..]);
    }
  }

  lemma {:induction false} UnlinesJoin(ls: seq<string>)
    requires |ls| > 0
    ensures Unlines(ls) == Join(ls, "\n") + "\n"
  {
    if |ls| > 1 {
      UnlinesJoin(ls[1..]);
    }
  }

  lemma {:induction false} UnlinesSnoc(ls: seq<string>, l: string)
    ensures Unlines(ls + [l]) == Unlines(ls) + l + "\n"
  {
    if ls != [] {
      assert (ls + [l])[1..] == ls[1..] + [l];
      UnlinesSnoc(ls[1..], l);
    } else {
      assert ls + [l] == [l];
    }
  }

  /** Terminated lines of two lists, one after the other. */
  lemma {:induction false} UnlinesAppend(a: seq<string>, b: seq<string>)
    ensures Unlines(a + b) == Unlines(a) + Unlines(b)
  {
    if a != [] {
      assert (a + b)[1..] == a[1..] + b;
      UnlinesAppend(a[1..], b);
      AppendAssoc(a[0] + "\n", Unlines(a[1..]), Unlines(b));
    } else {
      assert a + b == b;
    }
  }

  /**
   * The lines of `q + xs.join(a + "\n" + p)`: one per piece, the first headed by
   * `q`, the others by `p`, every one but the last followed by `a`.
   */
  lemma {:induction false} LinesOfJoin(q: string, xs: seq<string>, a: string, p: string)
    requires |xs| > 0 && xs[|xs| - 1] != ""
    requires '\n' !in q && '\n' !in a && '\n' !in p
    requires forall x <- xs :: '\n' !in x
    decreases |xs|
    ensures var ls := Lines(q + Join(xs, a + "\n" + p));
      |ls| == |xs| &&
      forall k :: 0 <= k < |xs| ==>
        ls[k] == (if k == 0 then q else p) + xs[k] + (if k < |xs| - 1 then a else "")
  {
    assert xs[0] in xs;
    if |xs| == 1 {
      assert q + Join(xs, a + "\n" + p) == q + xs[0];
      LinesSingle(q + xs[0]);
    } else {
      var sep := a + "\n" + p;
      var tail := xs[1..];
      assert forall x <- tail :: '\n' !in x by {
        assert forall x <- tail :: x in xs;
      }
      assert tail[|tail| - 1] == xs[|xs| - 1];
      LinesOfJoin(p, tail, a, p);
      var rest := Lines(p + Join(tail, sep));
      var head := q + xs[0] + a;
      var ls := Lines(q + Join(xs, sep));
      assert ls == [head] + rest by {
        assert '\n' !in head;
        calc {
          q + Join(xs, sep);
          { assert Join(xs, sep) == xs[0] + sep + Join(tail, sep); }
          q + (xs[0] + sep + Join(tail, sep));
          { Regroup(q, xs[0], a, p, Join(tail, sep)); }
          head + "\n" + (p + Join(tail, sep));
        }
        LinesCons(head, p + Join(tail, sep));
      }
      LinesOfJoinCons(q, xs, a, p, rest);
    }
  }

  /** The step of `LinesOfJoin`: the first line in front of the lines of the rest. */
  lemma LinesOfJoinCons(q: string, xs: seq<string>, a: string, p: string, rest: seq<string>)
    requires |xs| > 1 && |rest| == |xs| - 1
    requires forall k :: 0 <= k < |rest| ==>
      rest[k] == (if k == 0 then p else p) + xs[1..][k] + (if k < |xs[1..]| - 1 then a else "")
    ensures var ls := [q + xs[0] + a] + rest;
      |ls| == |xs| &&
      forall k :: 0 <= k < |xs| ==>
        ls[k] == (if k == 0 then q else p) + xs[k] + (if k < |xs| - 1 then a else "")
  {
    var ls := [q + xs[0] + a] + rest;
    forall k | 0 <= k < |xs|
      ensures ls[k] == (if k == 0 then q else p) + xs[k] + (if k < |xs| - 1 then a else "")
    {
      if k > 0 {
        assert ls[k] == rest[k - 1];
        assert xs[1..][k - 1] == xs[k];
      }
    }
  }

  lemma Regroup(q: string, x: string, a: string, p: string, j: string)
    ensures q + (x + (a + "\n" + p) + j) == (q + x + a) + "\n" + (p + j)
  {
  }

  lemma LineRegroup(x: string, rest: string, b: string)
    ensures (x + "\n" + rest) + b == x + "\n" + (rest + b)
  {
  }

  /** The white space `trim` removes here: space, tab, newline and carriage return. */
  predicate IsSpace(c: char) {
    c == ' ' || c == '\t' || c == '\n' || c == '\r'
  }

  /** The number of white-space characters `s.trim_start()` removes. */
  function LeadingSpaces(s: string): (n: nat)
    ensures n <= |s|
    ensures forall i :: 0 <= i < n ==> IsSpace(s[i])
    ensures n == |s| || !IsSpace(s[n])
  {
    if s != "" && IsSpace(s[0]) then 1 + LeadingSpaces(s[1..]) else 0
  }

  /** The number of white-space characters `s.trim_end()` removes. */
  function TrailingSpaces(s: string): (n: nat)
    ensures n <= |s|
    ensures forall i :: |s| - n <= i < |s| ==> IsSpace(s[i])
    ensures n == |s| || !IsSpace(s[|s| - n - 1])
  {
    if s != "" && IsSpace(s[|s| - 1]) then 1 + TrailingSpaces(s[..|s| - 1]) else 0
  }

  /** `s.trim_start()` over the white space of `IsSpace`: a suffix of `s`, losing only white space. */
  function TrimStart(s: string): string {
    s[LeadingSpaces(s)..]
  }

  /** `s.trim_end()` over the white space of `IsSpace`: a prefix of `s`, losing only white space. */
  function TrimEnd(s: string): string {
    s[..|s| - TrailingSpaces(s)]
  }

  /** `s.trim()`: `s` without its leading and trailing white space. */
  function Trim(s: string): (t: string)
    ensures t == "" || (!IsSpace(t[0]) && !IsSpace(t[|t| - 1]))
    ensures forall c :: c in t ==> c in s
  {
    var u := TrimStart(s);
    var t := TrimEnd(u);
    assert forall c :: c in t ==> c in u;
    assert forall c :: c in u ==> c in s;
    t
  }

  /** Every character of `x` is white space. */
  predicate Blank(x: string) {
    forall i :: 0 <= i < |x| ==> IsSpace(x[i])
  }

  /** `s.trim()` keeps the text between a white-space prefix and a white-space suffix of `s`. */
  lemma TrimStrips(s: string)
    ensures exists a, b :: Blank(a) && Blank(b) && s == a + Trim(s) + b
  {
    var u := TrimStart(s);
    var a := s[..LeadingSpaces(s)];
    var b := u[|u| - TrailingSpaces(u)..];
    var t := TrimEnd(u);
    assert Trim(s) == t;
    TrimStartSplits(s);
    TrimEndSplits(u);
    assert s == a + t + b by {
      assert a + (t + b) == a + t + b;
    }
    assert Blank(a) && Blank(b) && s == a + Trim(s) + b;
  }

  lemma TrimStartSplits(s: string)
    ensures Blank(s[..LeadingSpaces(s)]) && s == s[..LeadingSpaces(s)] + TrimStart(s)
  {
    var n := LeadingSpaces(s);
    assert TrimStart(s) == s[n..];
    assert Blank(s[..n]) by {
      forall i | 0 <= i < n ensures IsSpace(s[..n][i]) {
        assert s[..n][i] == s[i];
      }
    }
    assert s == s[..n] + s[n..];
  }

  lemma TrimEndSplits(u: string)
    ensures Blank(u[|u| - TrailingSpaces(u)..]) && u == TrimEnd(u) + u[|u| - TrailingSpaces(u)..]
  {
  }

  function Digit(d: nat): (c: char)
    requires d < 10
    ensures '0' <= c <= '9'
  {
    "0123456789"[d]
  }

  /** The decimal rendering `format!("{}", n)` of an unsigned integer. */
  function NatToString(n: nat): (s: string)
    ensures |s| > 0
    ensures forall i :: 0 <= i < |s| ==> '0' <= s[i] <= '9'
  {
    if n < 10 then [Digit(n)] else NatToString(n / 10) + [Digit(n % 10)]
  }

  /** The value of a string of decimal digits. */
  function DecimalValue(s: string): nat
    requires forall i :: 0 <= i < |s| ==> '0' <= s[i] <= '9'
  {
    if s == "" then 0 else 10 * DecimalValue(s[..|s| - 1]) + (s[|s| - 1] as int - '0' as int)
  }

  /** The decimal rendering reads back as the number it renders. */
  lemma {:induction false} DecimalRoundTrip(n: nat)
    ensures DecimalValue(NatToString(n)) == n
  {
    if n >= 10 {
      DecimalRoundTrip(n / 10);
      var s := NatToString(n);
      assert s[..|s| - 1] == NatToString(n / 10);
    }
  }
}
